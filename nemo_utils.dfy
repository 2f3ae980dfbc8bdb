/**
  The three helpers of `nemo_skills.utils` the planner calls. Their code is not part of this
  model, so they are passed in as function values, and what the planner relies on about them
  is stated as an explicit assumption, `ChunkNamingAssumed`.
 */
module NemoUtils {
  import opened PyStr

  /** An id list given as CLI text (`"0,1"` or `"0..3"`), as a Python list, or not at all. */
  datatype IdsArg = Absent | Text(text: string) | Ids(ids: seq<int>)

  /** Python truthiness of an id-list argument. */
  predicate TruthyIds(a: IdsArg) {
    match a
    case Absent => false
    case Text(t) => t != []
    case Ids(l) => l != []
  }

  datatype Helpers = Helpers(
    /** `get_chunked_filename(chunk_id, filename)`: the file name of one chunk of `filename`. */
    chunkedFilename: (int, string) -> string,
    /** `compute_chunk_ids(chunk_ids, num_chunks)`: the chunk ids a run works on. */
    computeChunkIds: (IdsArg, int) -> seq<int>,
    /** `str_ids_to_list(text)`: the ids a textual id list stands for. */
    strIdsToList: string -> seq<int>)

  /**
    The assumption about `get_chunked_filename`: it is injective in `(chunk_id, filename)`, and
    the chunk name of a relative file name is relative (of an absolute one, absolute).
   */
  ghost predicate ChunkNamingAssumed(h: Helpers) {
    && (forall c1, n1, c2, n2 ::
          h.chunkedFilename(c1, n1) == h.chunkedFilename(c2, n2) ==> c1 == c2 && n1 == n2)
    && (forall c, n {:trigger h.chunkedFilename(c, n)} :: IsAbsolute(h.chunkedFilename(c, n)) == IsAbsolute(n))
  }
}

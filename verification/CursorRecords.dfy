/** Stored read positions. */
module CursorRecords {
  import opened MessageIds

  const MAX_CURSOR_LEN := 512

  /** `updated` is the instant the stored time stamp parses to, or the zero time when it does not parse. */
  datatype Record = Record(agentId: string, busId: string, cursor: string, updated: int)

  predicate IsCursorChar(c: char) { IsServerIdChar(c) || c == '~' || c == '=' }

  /** The pattern `^[A-Za-z0-9._~=-]{1,512}$`. */
  predicate LegalCursor(s: string) {
    1 <= |s| <= MAX_CURSOR_LEN && forall i :: 0 <= i < |s| ==> IsCursorChar(s[i])
  }
}

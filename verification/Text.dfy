/** Names and blanks, as the loader and the author tools read them. */
module Text {
  predicate IsSpace(c: char) {
    || '\U{9}' <= c <= '\U{D}' || c == ' ' || c == '\U{85}' || c == '\U{A0}' || c == '\U{1680}'
    || '\U{2000}' <= c <= '\U{200A}' || c == '\U{2028}' || c == '\U{2029}' || c == '\U{202F}' || c == '\U{205F}' || c == '\U{3000}'
  }

  function TrimStart(s: string): string {
    if s != "" && IsSpace(s[0]) then TrimStart(s[1..]) else s
  }

  function TrimEnd(s: string): string {
    if s != "" && IsSpace(s[|s| - 1]) then TrimEnd(s[..|s| - 1]) else s
  }

  function Trim(s: string): string { TrimEnd(TrimStart(s)) }

  predicate NameChar(c: char) { 'a' <= c <= 'z' || 'A' <= c <= 'Z' || '0' <= c <= '9' || c == '_' || c == '-' }

  const MAX_ID_LEN: nat := 64

  /** An identifier of a scene. */
  predicate ValidId(id: string) {
    id != "" && |id| <= MAX_ID_LEN && forall i :: 0 <= i < |id| ==> NameChar(id[i])
  }

  predicate Blank(s: string) { Trim(s) == "" }

  predicate NoneBlank(ts: seq<string>) { forall i :: 0 <= i < |ts| ==> !Blank(ts[i]) }
}

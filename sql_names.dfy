/** Bracketing of the SQL schema and table names that the SQL variant splices into its
    statements. */
module SqlNames {

  /** The characters .NET's `char.IsWhiteSpace` accepts, which `string.Trim()` removes. */
  predicate IsWhiteSpace(c: char)
  {
    || ('\U{0009}' <= c <= '\U{000D}')
    || c == ' ' || c == '\U{0085}' || c == '\U{00A0}' || c == '\U{1680}'
    || ('\U{2000}' <= c <= '\U{200A}')
    || c == '\U{2028}' || c == '\U{2029}' || c == '\U{202F}' || c == '\U{205F}' || c == '\U{3000}'
  }

  /** `s` without its leading white space: a suffix of `s` whose dropped prefix is all white
      space and whose first character, if any, is not. */
  function TrimStart(s: string): (r: string)
    ensures |r| <= |s| && r == s[|s| - |r|..]
    ensures forall i :: 0 <= i < |s| - |r| ==> IsWhiteSpace(s[i])
    ensures r != [] ==> !IsWhiteSpace(r[0])
  {
    if s != [] && IsWhiteSpace(s[0]) then TrimStart(s[1..]) else s
  }

  /** `s` without its trailing white space: a prefix of `s` whose dropped suffix is all white
      space and whose last character, if any, is not. */
  function TrimEnd(s: string): (r: string)
    ensures |r| <= |s| && r == s[..|r|]
    ensures forall i :: |r| <= i < |s| ==> IsWhiteSpace(s[i])
    ensures r != [] ==> !IsWhiteSpace(r[|r| - 1])
  {
    if s != [] && IsWhiteSpace(s[|s| - 1]) then TrimEnd(s[..|s| - 1]) else s
  }

  /** `string.Trim()`: white space removed from both ends. */
  function Trim(s: string): (r: string)
    ensures r != [] ==> !IsWhiteSpace(r[0]) && !IsWhiteSpace(r[|r| - 1])
  {
    TrimEnd(TrimStart(s))
  }

  /** Trimming removes white space at the ends and nothing else: the result is the slice of
      `s` that starts after the leading white space, and everything before and after that
      slice is white space. */
  lemma TrimRemovesOnlyEdges(s: string)
    ensures var r, i := Trim(s), |s| - |TrimStart(s)|;
      && i + |r| <= |s| && r == s[i..i + |r|]
      && (forall k :: 0 <= k < i ==> IsWhiteSpace(s[k]))
      && (forall k :: i + |r| <= k < |s| ==> IsWhiteSpace(s[k]))
  {
    var t := TrimStart(s);
    var i := |s| - |t|;
    var r := TrimEnd(t);
    assert t == s[i..] && r == t[..|r|];
    forall k | i + |r| <= k < |s| ensures IsWhiteSpace(s[k]) {
      assert s[k] == t[k - i];
    }
  }

  predicate IsBracketed(s: string)
  {
    |s| > 0 && s[0] == '[' && s[|s| - 1] == ']'
  }

  /** `SantizeDatabaseObjectName`: the trimmed name, wrapped in brackets unless it already
      starts with `[` and ends with `]`. */
  function SanitizeDatabaseObjectName(name: string): (r: string)
    ensures IsBracketed(r) && |r| >= 2
    ensures IsBracketed(Trim(name)) ==> r == Trim(name)
    ensures !IsBracketed(Trim(name)) ==> r == "[" + Trim(name) + "]"
  {
    var sanitized := Trim(name);
    if |sanitized| > 0 && sanitized[0] == '[' && sanitized[|sanitized| - 1] == ']' then sanitized
    else "[" + sanitized + "]"
  }

  /** The qualified table name of the insert statements. */
  function QualifiedTableName(schema: string, table: string): string
  {
    SanitizeDatabaseObjectName(schema) + "." + SanitizeDatabaseObjectName(table)
  }

  /** A string that neither starts nor ends with white space is its own trim. */
  lemma TrimUnchanged(s: string)
    requires s != [] ==> !IsWhiteSpace(s[0]) && !IsWhiteSpace(s[|s| - 1])
    ensures Trim(s) == s
  {
    assert TrimStart(s) == s;
  }

  /** Trimming twice is trimming once. */
  lemma TrimIdempotent(s: string)
    ensures Trim(Trim(s)) == Trim(s)
  {
    TrimUnchanged(Trim(s));
  }

  /** Sanitising an already sanitised name changes nothing. */
  lemma SanitizeIdempotent(name: string)
    ensures SanitizeDatabaseObjectName(SanitizeDatabaseObjectName(name)) == SanitizeDatabaseObjectName(name)
  {
    var r := SanitizeDatabaseObjectName(name);
    TrimUnchanged(r);
  }
}

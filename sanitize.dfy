/** The validators that guard every materialized-column request: each either
    rejects with the error of the first rule broken or returns its input. */
module Sanitize {
  import opened Wrappers
  import opened DataSourceTypes

  predicate IsAsciiLetter(c: char) {
    'a' <= c <= 'z' || 'A' <= c <= 'Z'
  }

  predicate IsDigit(c: char) {
    '0' <= c <= '9'
  }

  /** The class `[a-zA-Z0-9 _-]`. */
  predicate IsSourceFieldChar(c: char) {
    IsAsciiLetter(c) || IsDigit(c) || c == ' ' || c == '_' || c == '-'
  }

  /** The class `[a-zA-Z_]`. */
  predicate IsIdentStart(c: char) {
    IsAsciiLetter(c) || c == '_'
  }

  /** The class `[a-zA-Z0-9_]`. */
  predicate IsIdentChar(c: char) {
    IsIdentStart(c) || IsDigit(c)
  }

  /** `/^[a-zA-Z0-9 _-]*$/.test(s)`, matched character by character. */
  function MatchesSourceFieldChars(s: string): (b: bool)
    ensures b <==> forall i :: 0 <= i < |s| ==> IsSourceFieldChar(s[i])
  {
    s == [] || (IsSourceFieldChar(s[0]) && MatchesSourceFieldChars(s[1..]))
  }

  /** `/[a-zA-Z]/.test(s)`: the pattern is unanchored, so one letter anywhere
      is a match. */
  function ContainsLetter(s: string): (b: bool)
    ensures b <==> exists i :: 0 <= i < |s| && IsAsciiLetter(s[i])
  {
    if s == [] then false
    else if IsAsciiLetter(s[0]) then true
    else
      assert forall i :: 1 <= i < |s| ==> s[i] == s[1..][i - 1];
      ContainsLetter(s[1..])
  }

  /** `[a-zA-Z0-9_]*$`, the tail of the identifier pattern. */
  function MatchesIdentTail(s: string): (b: bool)
    ensures b <==> forall i :: 0 <= i < |s| ==> IsIdentChar(s[i])
  {
    s == [] || (IsIdentChar(s[0]) && MatchesIdentTail(s[1..]))
  }

  /** `/^[a-zA-Z_][a-zA-Z0-9_]*$/.test(s)`. */
  function MatchesIdentifier(s: string): (b: bool)
    ensures b <==> |s| > 0 && IsIdentStart(s[0]) && forall i :: 1 <= i < |s| ==> IsIdentChar(s[i])
  {
    assert forall i :: 1 <= i < |s| ==> s[i] == s[1..][i - 1];
    |s| > 0 && IsIdentStart(s[0]) && MatchesIdentTail(s[1..])
  }

  /** `toLowerCase` on the ASCII letters; the only strings lowered are those
      the identifier pattern already accepted, which are ASCII. */
  function LowerChar(c: char): char {
    if 'A' <= c <= 'Z' then (c as int + 32) as char else c
  }

  /** Lower-casing keeps the length, leaves no upper-case ASCII letter,
      keeps every other character, and maps each upper-case letter to its
      lower-case partner. */
  function Lower(s: string): (r: string)
    ensures |r| == |s|
    ensures forall i :: 0 <= i < |r| ==> !('A' <= r[i] <= 'Z')
    ensures forall i :: 0 <= i < |s| && !('A' <= s[i] <= 'Z') ==> r[i] == s[i]
    ensures forall i :: 0 <= i < |s| && 'A' <= s[i] <= 'Z' ==> 'a' <= r[i] <= 'z' && r[i] as int - s[i] as int == 32
  {
    seq(|s|, i requires 0 <= i < |s| => LowerChar(s[i]))
  }

  /** The SQL words refused as column names, compared in lower case. */
  const SqlKeywords: set<string> := {
    "select", "from", "where", "order", "having", "limit", "offset", "join",
    "on", "using", "as", "distinct", "union", "if", "then", "else", "end",
    "case", "when", "and", "or", "not", "true", "false", "null", "is", "in",
    "between", "exists", "like", "array", "tuple", "map", "cast", "inf",
    "infinity", "nan", "default", "current_date", "current_timestamp",
    "sysdate"
  }

  /** The rules a source field must meet, stated on its characters. */
  ghost predicate ValidSourceField(s: string) {
    && (forall i :: 0 <= i < |s| ==> IsSourceFieldChar(s[i]))
    && (exists i :: 0 <= i < |s| && IsAsciiLetter(s[i]))
    && s[0] != ' '
    && s[|s| - 1] != ' '
  }

  /** The rules a column name must meet; `reserved` stands for
      `getReservedColumnNames()`, whose content is not part of this model. */
  ghost predicate ValidColumnName(s: string, reserved: set<string>) {
    && |s| > 0
    && IsIdentStart(s[0])
    && (forall i :: 1 <= i < |s| ==> IsIdentChar(s[i]))
    && Lower(s) !in reserved
    && Lower(s) !in SqlKeywords
  }

  /** `sanitizeMatColumnSourceField`. */
  function SanitizeSourceField(s: string): (r: Result<string, Error>)
    ensures r.Ok? <==> ValidSourceField(s)
    ensures r.Ok? ==> r.value == s
    ensures r == Err(SourceFieldInvalidChars) <==> exists i :: 0 <= i < |s| && !IsSourceFieldChar(s[i])
    ensures r == Err(SourceFieldNoLetter) <==>
              (forall i :: 0 <= i < |s| ==> IsSourceFieldChar(s[i]))
              && (forall i :: 0 <= i < |s| ==> !IsAsciiLetter(s[i]))
    ensures r == Err(SourceFieldEdgeSpace) <==>
              (forall i :: 0 <= i < |s| ==> IsSourceFieldChar(s[i]))
              && (exists i :: 0 <= i < |s| && IsAsciiLetter(s[i]))
              && |s| > 0 && (s[0] == ' ' || s[|s| - 1] == ' ')
  {
    if !MatchesSourceFieldChars(s) then Err(SourceFieldInvalidChars)
    else if !ContainsLetter(s) then Err(SourceFieldNoLetter)
    else if s[0] == ' ' || s[|s| - 1] == ' ' then Err(SourceFieldEdgeSpace)
    else Ok(s)
  }

  /** `sanitizeMatColumnName`. */
  function SanitizeColumnName(s: string, reserved: set<string>): (r: Result<string, Error>)
    ensures r.Ok? <==> ValidColumnName(s, reserved)
    ensures r.Ok? ==> r.value == s
    ensures r == Err(ColumnNameInvalid) <==>
              (s == [] || !IsIdentStart(s[0]) || exists i :: 1 <= i < |s| && !IsIdentChar(s[i]))
    ensures r == Err(ColumnNameReserved) <==> MatchesIdentifier(s) && Lower(s) in reserved
    ensures r == Err(ColumnNameKeyword) <==>
              MatchesIdentifier(s) && Lower(s) !in reserved && Lower(s) in SqlKeywords
  {
    if !MatchesIdentifier(s) then Err(ColumnNameInvalid)
    else
      var cmp := Lower(s);
      if cmp in reserved then Err(ColumnNameReserved)
      else if cmp in SqlKeywords then Err(ColumnNameKeyword)
      else Ok(s)
  }

  /** `sanitizeMatColumnInput`; `allowedTypes` stands for
      `factTableColumnTypes`, whose content is not part of this model. The
      datatype is checked first, then the source field, then the name. */
  function SanitizeInput(input: MatColumn, reserved: set<string>, allowedTypes: seq<string>): (r: Result<MatColumn, Error>)
    ensures r.Ok? <==>
              input.dataType in allowedTypes
              && ValidSourceField(input.sourceField)
              && ValidColumnName(input.columnName, reserved)
    ensures r.Ok? ==> r.value == input
    ensures input.dataType !in allowedTypes ==> r == Err(InvalidDatatype)
    ensures input.dataType in allowedTypes && SanitizeSourceField(input.sourceField).Err? ==>
              r == Err(SanitizeSourceField(input.sourceField).error)
    ensures input.dataType in allowedTypes && SanitizeSourceField(input.sourceField).Ok?
              && SanitizeColumnName(input.columnName, reserved).Err? ==>
              r == Err(SanitizeColumnName(input.columnName, reserved).error)
  {
    if input.dataType !in allowedTypes then Err(InvalidDatatype)
    else
      var sourceField :- SanitizeSourceField(input.sourceField);
      var columnName :- SanitizeColumnName(input.columnName, reserved);
      Ok(MatColumn(input.dataType, sourceField, columnName))
  }

  lemma LowerCharSameClass(a: char, b: char)
    requires LowerChar(a) == LowerChar(b)
    ensures IsIdentStart(a) <==> IsIdentStart(b)
    ensures IsIdentChar(a) <==> IsIdentChar(b)
  {
  }

  /** Column names are compared case-insensitively: two names with the same
      lower-case form are accepted or rejected together. */
  lemma {:induction false} ColumnNameCaseInsensitive(s: string, t: string, reserved: set<string>)
    requires Lower(s) == Lower(t)
    ensures SanitizeColumnName(s, reserved).Ok? <==> SanitizeColumnName(t, reserved).Ok?
  {
    assert |s| == |Lower(s)| == |Lower(t)| == |t|;
    forall i | 0 <= i < |s|
      ensures IsIdentStart(s[i]) <==> IsIdentStart(t[i])
      ensures IsIdentChar(s[i]) <==> IsIdentChar(t[i])
    {
      assert Lower(s)[i] == Lower(t)[i];
      LowerCharSameClass(s[i], t[i]);
    }
  }

  /** A keyword is refused in every spelling, "SELECT" and "Select" alike. */
  lemma KeywordRefusedInAnyCase(s: string, reserved: set<string>)
    requires Lower(s) in SqlKeywords
    ensures SanitizeColumnName(s, reserved).Err?
  {
  }

  lemma SelectRefused(reserved: set<string>)
    ensures SanitizeColumnName("SELECT", reserved).Err?
    ensures SanitizeColumnName("Select", reserved).Err?
  {
    assert Lower("SELECT") == "select";
    assert Lower("Select") == "select";
  }
}

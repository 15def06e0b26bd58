/** `getQueries`: the ids in the path are split on commas, the stored runs
    are indexed by id, and the answer lists one entry per requested id, in
    request order, None where no run has that id. */
module GetQueries {
  import opened Wrappers
  import opened DataSourceTypes

  /** Joining pieces with a separator: the inverse of `Split`. */
  function Join(parts: seq<string>, sep: char): string
    requires |parts| > 0
  {
    if |parts| == 1 then parts[0] else parts[0] + [sep] + Join(parts[1..], sep)
  }

  lemma JoinFirstGrows(c: char, parts: seq<string>, sep: char)
    requires |parts| > 0
    ensures Join([[c] + parts[0]] + parts[1..], sep) == [c] + Join(parts, sep)
  {
  }

  /** `s.split(sep)` for a one-character separator: there is always one more
      piece than separators, so "" gives [""] and "a,,b" gives
      ["a", "", "b"]. */
  function Split(s: string, sep: char): (r: seq<string>)
    ensures |r| > 0
    ensures forall k :: 0 <= k < |r| ==> sep !in r[k]
    ensures Join(r, sep) == s
  {
    if s == [] then [[]]
    else
      var rest := Split(s[1..], sep);
      if s[0] == sep then
        assert Join([[]] + rest, sep) == [sep] + Join(rest, sep) by {
          assert ([[]] + rest)[1..] == rest;
        }
        [[]] + rest
      else
        JoinFirstGrows(s[0], rest, sep);
        assert s == [s[0]] + s[1..];
        [[s[0]] + rest[0]] + rest[1..]
  }

  /** Splitting what was joined gives the pieces back, as long as no piece
      holds the separator. */
  lemma {:induction false} SplitJoin(parts: seq<string>, sep: char)
    requires |parts| > 0
    requires forall k :: 0 <= k < |parts| ==> sep !in parts[k]
    ensures Split(Join(parts, sep), sep) == parts
  {
    if |parts| == 1 {
      SplitPiece(parts[0], sep);
    } else {
      SplitJoin(parts[1..], sep);
      SplitPieceThen(parts[0], Join(parts[1..], sep), sep);
      assert parts == [parts[0]] + parts[1..];
    }
  }

  lemma SplitPiece(p: string, sep: char)
    requires sep !in p
    ensures Split(p, sep) == [p]
  {
  }

  lemma {:induction false} SplitPieceThen(p: string, tail: string, sep: char)
    requires sep !in p
    ensures Split(p + [sep] + tail, sep) == [p] + Split(tail, sep)
  {
    if p == [] {
      assert p + [sep] + tail == [sep] + tail;
      assert ([sep] + tail)[1..] == tail;
    } else {
      var s := p + [sep] + tail;
      assert s[0] == p[0];
      assert s[1..] == p[1..] + [sep] + tail;
      SplitPieceThen(p[1..], tail, sep);
      assert p == [p[0]] + p[1..];
    }
  }

  /** The last run with the given id, searched from the end. */
  function LastById(docs: seq<QueryDoc>, id: string): (r: Option<QueryDoc>)
    ensures r.None? <==> forall j :: 0 <= j < |docs| ==> docs[j].id != id
    ensures r.Some? ==> r.value.id == id
    ensures r.Some? ==>
              exists j :: 0 <= j < |docs| && docs[j] == r.value
                && forall k :: j < k < |docs| ==> docs[k].id != id
  {
    if docs == [] then None
    else if docs[|docs| - 1].id == id then Some(docs[|docs| - 1])
    else
      var init := docs[..|docs| - 1];
      assert forall j :: 0 <= j < |init| ==> init[j] == docs[j];
      LastById(init, id)
  }

  /** `new Map(docs.map((d) => [d.id, d]))`: later runs with the same id
      overwrite earlier ones, so each key holds the last run with that id. */
  function IndexById(docs: seq<QueryDoc>): (m: map<string, QueryDoc>)
    ensures forall id :: id !in m ==> LastById(docs, id).None?
    ensures forall id :: id in m ==> LastById(docs, id) == Some(m[id])
  {
    if docs == [] then map[]
    else
      var last := docs[|docs| - 1];
      IndexById(docs[..|docs| - 1])[last.id := last]
  }

  /** `queries.map((id) => map.get(id) || null)`. */
  function Answer(ids: seq<string>, docs: seq<QueryDoc>): (r: seq<Option<QueryDoc>>)
    ensures |r| == |ids|
    ensures forall i :: 0 <= i < |ids| ==>
              (r[i].None? <==> forall j :: 0 <= j < |docs| ==> docs[j].id != ids[i])
    ensures forall i :: 0 <= i < |ids| && r[i].Some? ==>
              r[i].value.id == ids[i]
              && exists j :: 0 <= j < |docs| && docs[j] == r[i].value
                   && forall k :: j < k < |docs| ==> docs[k].id != ids[i]
  {
    var m := IndexById(docs);
    seq(|ids|, i requires 0 <= i < |ids| => if ids[i] in m then Some(m[ids[i]]) else None)
  }

  /** The whole controller: the path parameter is split on "," and each
      piece answered. `docs` stands for what `getQueriesByIds` returns. */
  function GetQueriesResponse(idsParam: string, docs: seq<QueryDoc>): (r: seq<Option<QueryDoc>>)
    ensures |r| == |Split(idsParam, ',')|
    ensures forall i :: 0 <= i < |r| && r[i].Some? ==> r[i].value.id == Split(idsParam, ',')[i]
  {
    Answer(Split(idsParam, ','), docs)
  }
}

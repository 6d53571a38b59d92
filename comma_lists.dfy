/**
 * Comma-separated lists as Go's strings package builds and reads them:
 * `Join` concatenates the parts with "," between neighbours, `Split` cuts a
 * string at every ",".
 */
module CommaLists {

  const Separator: char := ','

  /** strings.Join(parts, ","): no separator before the first part or after the last. */
  function Join(parts: seq<string>): (joined: string)
    ensures parts == [] ==> joined == ""
    ensures |parts| >= 1 ==> parts[0] <= joined
    ensures |parts| >= 2 ==> |joined| > |parts[0]| && joined[|parts[0]|] == Separator && parts[1] <= joined[|parts[0]| + 1..]
    decreases |parts|
  {
    if parts == [] then ""
    else if |parts| == 1 then parts[0]
    else parts[0] + [Separator] + Join(parts[1..])
  }

  /** strings.Split(s, ","): the pieces between separators; the empty string gives one empty piece. */
  function Split(s: string): (pieces: seq<string>)
    ensures |pieces| >= 1
    decreases |s|
  {
    if s == [] then [""]
    else
      var rest := Split(s[1..]);
      if s[0] == Separator then [""] + rest
      else [[s[0]] + rest[0]] + rest[1..]
  }

  /** A valid list element: it holds no separator. */
  predicate CommaFree(part: string)
  {
    Separator !in part
  }

  /** A comma-free prefix stays in one piece: splitting `part` followed by "," and `tail`. */
  lemma {:induction false} SplitAfterPart(part: string, tail: string)
    requires CommaFree(part)
    ensures Split(part + [Separator] + tail) == [part] + Split(tail)
    ensures Split(part) == [part]
    decreases |part|
  {
    if part == [] {
      assert part + [Separator] + tail == [Separator] + tail;
      assert ([Separator] + tail)[1..] == tail;
    } else {
      var s := part + [Separator] + tail;
      SplitAfterPart(part[1..], tail);
      assert s[1..] == part[1..] + [Separator] + tail;
      assert [part[0]] + part[1..] == part;
      assert part[1..] == [] ==> Split(part[1..]) == [""];
    }
  }

  /** Splitting a joined list gives the list back, when it is non-empty and no part holds a comma. */
  lemma {:induction false} SplitJoin(parts: seq<string>)
    requires |parts| >= 1
    requires forall k :: 0 <= k < |parts| ==> CommaFree(parts[k])
    ensures Split(Join(parts)) == parts
    decreases |parts|
  {
    if |parts| == 1 {
      SplitAfterPart(parts[0], "");
    } else {
      SplitJoin(parts[1..]);
      SplitAfterPart(parts[0], Join(parts[1..]));
      assert [parts[0]] + parts[1..] == parts;
    }
  }

  /** A join is empty exactly for no parts or a single empty part. */
  lemma JoinEmptyIff(parts: seq<string>)
    ensures Join(parts) == "" <==> parts == [] || parts == [""]
  {
  }
}

/**
 * `String.add(text:separatedBy:)`, the joiner every address formatter is built from,
 * and what a run of successive `add` calls produces.
 */
module StringAddText {
  import opened Wrappers

  /** The value `s` holds after `s.add(text: text, separatedBy: separator)`. */
  function AddText(s: string, text: Option<string>, separator: string): string
  {
    match text
    case None => s
    case Some(t) => if s == [] then t else s + separator + t
  }

  /**
   * The old string is always a prefix of the new one; a nil text changes nothing; a
   * present text ends the result, after the separator only when the string was non-empty.
   */
  lemma AddTextShape(s: string, text: Option<string>, separator: string)
    ensures s <= AddText(s, text, separator)
    ensures text.None? ==> AddText(s, text, separator) == s
    ensures text.Some? ==>
      (|AddText(s, text, separator)| == |s| + (if s == [] then 0 else |separator|) + |text.value|)
    ensures text.Some? ==>
      AddText(s, text, separator)[|AddText(s, text, separator)| - |text.value|..] == text.value
  {
  }

  /**
   * The mutating call itself: the separator is appended only to a non-empty string,
   * then the text; an absent text leaves the string alone. The separator defaults to "".
   */
  method Add(s: string, text: Option<string>, separator: string := "") returns (r: string)
    ensures r == AddText(s, text, separator)
    ensures text.None? ==> r == s
    ensures text.Some? && s == [] ==> r == text.value
    ensures text.Some? && s != [] ==> r == s + separator + text.value
  {
    r := s;
    if text.Some? {
      if r != [] {
        r := r + separator;
      }
      r := r + text.value;
    }
  }

  /** One `add` call of a formatter: the separator it passes and the field it adds. */
  datatype Part = Part(separator: string, text: Option<string>)

  /** The string after the calls `parts` are made, in order, starting from `s`. */
  function AddAll(s: string, parts: seq<Part>): string
    decreases parts
  {
    if parts == [] then s
    else AddAll(AddText(s, parts[0].text, parts[0].separator), parts[1..])
  }

  /** What a part adds after a non-empty string: its separator and text, or nothing when absent. */
  function Contribution(p: Part): string
  {
    match p.text
    case None => ""
    case Some(t) => p.separator + t
  }

  /** Every present part preceded by its own separator; absent parts contribute nothing. */
  function Tail(parts: seq<Part>): string
  {
    if parts == [] then "" else Contribution(parts[0]) + Tail(parts[1..])
  }

  /**
   * The joined text, stated without the running string: absent parts and leading empty
   * texts contribute nothing, the first non-empty text comes without a separator, and
   * every later present part, even an empty one, brings its separator.
   */
  function Joined(parts: seq<Part>): string
  {
    if parts == [] then ""
    else
      match parts[0].text
      case None => Joined(parts[1..])
      case Some(t) => if t == "" then Joined(parts[1..]) else t + Tail(parts[1..])
  }

  /** Dropping an absent part, wherever it stands, leaves the tail unchanged. */
  lemma {:induction false} TailSkipsAbsent(parts: seq<Part>, k: nat)
    requires k < |parts| && parts[k].text.None?
    ensures Tail(parts[..k] + parts[k + 1..]) == Tail(parts)
    decreases k
  {
    var q := parts[..k] + parts[k + 1..];
    if k == 0 {
      assert q == parts[1..];
    } else {
      var rest := parts[1..];
      TailSkipsAbsent(rest, k - 1);
      assert q[0] == parts[0];
      assert q[1..] == rest[..k - 1] + rest[k..];
    }
  }

  /** Dropping an absent part, wherever it stands, leaves the join unchanged. */
  lemma {:induction false} JoinedSkipsAbsent(parts: seq<Part>, k: nat)
    requires k < |parts| && parts[k].text.None?
    ensures Joined(parts[..k] + parts[k + 1..]) == Joined(parts)
    decreases k
  {
    var q := parts[..k] + parts[k + 1..];
    if k == 0 {
      assert q == parts[1..];
    } else {
      var rest := parts[1..];
      assert q[0] == parts[0];
      assert q[1..] == rest[..k - 1] + rest[k..];
      match parts[0].text
      case None =>
        JoinedSkipsAbsent(rest, k - 1);
      case Some(t) =>
        if t == "" {
          JoinedSkipsAbsent(rest, k - 1);
        } else {
          TailSkipsAbsent(rest, k - 1);
        }
    }
  }

  /** The first part's separator is never used: nothing comes before it. */
  lemma JoinedIgnoresFirstSeparator(a: string, b: string, text: Option<string>, rest: seq<Part>)
    ensures Joined([Part(a, text)] + rest) == Joined([Part(b, text)] + rest)
  {
    assert ([Part(a, text)] + rest)[1..] == rest == ([Part(b, text)] + rest)[1..];
  }

  /** Once the string is non-empty, every later present part appends separator and text. */
  lemma {:induction false} AddAllFromNonEmpty(s: string, parts: seq<Part>)
    requires s != []
    ensures AddAll(s, parts) == s + Tail(parts)
    decreases parts
  {
    if parts != [] {
      var s' := s + Contribution(parts[0]);
      AddTextAfterNonEmpty(s, parts[0]);
      AddAllFromNonEmpty(s', parts[1..]);
      assert s' + Tail(parts[1..]) == s + (Contribution(parts[0]) + Tail(parts[1..]));
    }
  }

  /** A part added to a non-empty string appends its contribution. */
  lemma AddTextAfterNonEmpty(s: string, p: Part)
    requires s != []
    ensures AddText(s, p.text, p.separator) == s + Contribution(p)
  {
    match p.text
    case None =>
    case Some(t) =>
      assert s + p.separator + t == s + (p.separator + t);
  }

  /** One more `add` call extends the run by one part. */
  lemma {:induction false} AddAllSnoc(s: string, parts: seq<Part>, p: Part)
    ensures AddAll(s, parts + [p]) == AddText(AddAll(s, parts), p.text, p.separator)
    decreases parts
  {
    if parts != [] {
      assert (parts + [p])[1..] == parts[1..] + [p];
      AddAllSnoc(AddText(s, parts[0].text, parts[0].separator), parts[1..], p);
    }
  }

  /** Successive `add` calls on an empty string build exactly the reference join. */
  lemma {:induction false} AddAllJoins(parts: seq<Part>)
    ensures AddAll("", parts) == Joined(parts)
  {
    if parts != [] {
      match parts[0].text
      case None =>
        AddAllJoins(parts[1..]);
      case Some(t) =>
        if t == "" {
          AddAllJoins(parts[1..]);
        } else {
          AddAllFromNonEmpty(t, parts[1..]);
        }
    }
  }

  /** The join is empty exactly when every present part has an empty text. */
  lemma {:induction false} JoinedEmptyIff(parts: seq<Part>)
    ensures Joined(parts) == "" <==>
      forall i :: 0 <= i < |parts| && parts[i].text.Some? ==> parts[i].text.value == ""
  {
    if parts != [] {
      JoinedEmptyIff(parts[1..]);
      assert forall i :: 1 <= i < |parts| ==> parts[i] == parts[1..][i - 1];
    }
  }

  /** With the default separator a present text is plain concatenation. */
  lemma DefaultSeparatorConcatenates(s: string, t: string)
    ensures AddText(s, Some(t), "") == s + t
  {
  }

  /** An empty but present text still appends the separator to a non-empty string. */
  lemma EmptyTextAppendsSeparator(s: string, separator: string)
    requires s != []
    ensures AddText(s, Some(""), separator) == s + separator
  {
  }
}

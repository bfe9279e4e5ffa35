/** The text of the lines the scaling decision logs, and a reader that
    recovers the counts from them. */
module ScalingLines {
  import opened Builtins

  /** The four wordings of the line logged after a patch: the direction,
      and whether the cluster already shows the target ("is") or not yet
      ("will be"). */
  datatype Wording = Increased | PendingIncrease | Decreased | PendingDecrease {
    predicate Up() {
      Increased? || PendingIncrease?
    }
    predicate Pending() {
      PendingIncrease? || PendingDecrease?
    }
  }

  function Headline(w: Wording): string {
    match w
    case Increased => "Pod count is increased from "
    case PendingIncrease => "Pod count will be increased from "
    case Decreased => "Pod count is decreased from "
    case PendingDecrease => "Pod count will be decreased from "
  }

  const MaintainedHead := "Pod replica count of "
  const MaintainedTail := " to be maintained"

  function ChangeMessage(w: Wording, from: int, to: int): string {
    Headline(w) + IntToString(from) + " to " + IntToString(to)
  }

  /** What a reader of the log recovers from a scaling line. */
  datatype ScalingLine = Changed(wording: Wording, from: int, to: int) | Maintained(count: int)

  predicate StartsWith(s: string, head: string) {
    |head| <= |s| && s[..|head|] == head
  }

  /** The position of the first space, or the length when there is none. */
  function IndexOfSpace(s: string): (i: nat)
    ensures i <= |s| && (i < |s| ==> s[i] == ' ')
    ensures forall k | 0 <= k < i :: s[k] != ' '
  {
    if s == [] || s[0] == ' ' then 0 else 1 + IndexOfSpace(s[1..])
  }

  /** "<from> to <to>" after a headline. */
  function ParseChange(w: Wording, rest: string): Option<ScalingLine> {
    var i := IndexOfSpace(rest);
    if i + 4 <= |rest| && rest[i..i + 4] == " to " then
      match (ParseInt(rest[..i]), ParseInt(rest[i + 4..]))
      case (Some(a), Some(b)) => Some(Changed(w, a, b))
      case _ => None
    else None
  }

  /** "<count> to be maintained" after its head. */
  function ParseMaintained(rest: string): Option<ScalingLine> {
    var i := IndexOfSpace(rest);
    if rest[i..] == MaintainedTail then
      match ParseInt(rest[..i])
      case Some(n) => Some(Maintained(n))
      case None => None
    else None
  }

  /** Reads back a line logged by the scaling decision. */
  function ParseScalingLine(line: string): Option<ScalingLine> {
    if StartsWith(line, Headline(Increased)) then ParseChange(Increased, line[|Headline(Increased)|..])
    else if StartsWith(line, Headline(PendingIncrease)) then ParseChange(PendingIncrease, line[|Headline(PendingIncrease)|..])
    else if StartsWith(line, Headline(Decreased)) then ParseChange(Decreased, line[|Headline(Decreased)|..])
    else if StartsWith(line, Headline(PendingDecrease)) then ParseChange(PendingDecrease, line[|Headline(PendingDecrease)|..])
    else if StartsWith(line, MaintainedHead) then ParseMaintained(line[|MaintainedHead|..])
    else None
  }

  lemma IntToStringNoSpace(i: int)
    ensures forall k | 0 <= k < |IntToString(i)| :: IntToString(i)[k] != ' '
  {
    var d := NatToString(if i < 0 then -i else i);
    assert forall k | 0 <= k < |d| :: IsDigit(d[k]);
  }

  /** A number written by `str` followed by text that starts with a space
      splits at that space. */
  lemma SplitAfterNumber(i: int, rest: string)
    requires |rest| > 0 && rest[0] == ' '
    ensures var s := IntToString(i) + rest;
            IndexOfSpace(s) == |IntToString(i)|
            && s[..|IntToString(i)|] == IntToString(i) && s[|IntToString(i)|..] == rest
  {
    IntToStringNoSpace(i);
    var s := IntToString(i) + rest;
    assert s[|IntToString(i)|] == ' ';
  }

  lemma NotStartsWith(s: string, head: string, k: nat)
    requires k < |head| && k < |s| && s[k] != head[k]
    ensures !StartsWith(s, head)
  {
    if |head| <= |s| {
      assert s[..|head|][k] == s[k];
    }
  }

  lemma StartsWithHead(head: string, rest: string)
    ensures StartsWith(head + rest, head) && (head + rest)[|head|..] == rest
  {
    assert (head + rest)[..|head|] == head;
  }

  /** The part after a headline reads back as both counts. */
  lemma ParseChangeRoundTrip(w: Wording, from: int, to: int)
    ensures ParseChange(w, IntToString(from) + " to " + IntToString(to)) == Some(Changed(w, from, to))
  {
    var rest := IntToString(from) + " to " + IntToString(to);
    SplitAfterNumber(from, " to " + IntToString(to));
    assert rest == IntToString(from) + (" to " + IntToString(to));
    var i := |IntToString(from)|;
    assert rest[i..i + 4] == " to " && rest[i + 4..] == IntToString(to);
    IntToStringRoundTrip(from);
    IntToStringRoundTrip(to);
  }

  /** Only the line's own headline matches: the headlines differ at position
      10 ("is" against "will") or at 13 or 18 (the direction). */
  lemma HeadlineSelects(w: Wording, rest: string)
    ensures ParseScalingLine(Headline(w) + rest) == ParseChange(w, rest)
  {
    var line := Headline(w) + rest;
    StartsWithHead(Headline(w), rest);
    match w {
      case Increased =>
      case PendingIncrease =>
        NotStartsWith(line, Headline(Increased), 10);
      case Decreased =>
        NotStartsWith(line, Headline(Increased), 13);
        NotStartsWith(line, Headline(PendingIncrease), 10);
      case PendingDecrease =>
        NotStartsWith(line, Headline(Increased), 10);
        NotStartsWith(line, Headline(PendingIncrease), 18);
        NotStartsWith(line, Headline(Decreased), 10);
    }
  }

  lemma ChangeMessageRoundTrip(w: Wording, from: int, to: int)
    ensures ParseScalingLine(ChangeMessage(w, from, to)) == Some(Changed(w, from, to))
  {
    var rest := IntToString(from) + " to " + IntToString(to);
    assert ChangeMessage(w, from, to) == Headline(w) + rest;
    HeadlineSelects(w, rest);
    ParseChangeRoundTrip(w, from, to);
  }

  /** No patch headline matches the head of a hold line. */
  lemma MaintainedHeadSelects(rest: string)
    ensures ParseScalingLine(MaintainedHead + rest) == ParseMaintained(rest)
  {
    var line := MaintainedHead + rest;
    StartsWithHead(MaintainedHead, rest);
    NotStartsWith(line, Headline(Increased), 4);
    NotStartsWith(line, Headline(PendingIncrease), 4);
    NotStartsWith(line, Headline(Decreased), 4);
    NotStartsWith(line, Headline(PendingDecrease), 4);
  }

  lemma ParseMaintainedRoundTrip(n: int)
    ensures ParseMaintained(IntToString(n) + MaintainedTail) == Some(Maintained(n))
  {
    SplitAfterNumber(n, MaintainedTail);
    IntToStringRoundTrip(n);
  }

  function MaintainedMessage(n: int): string {
    MaintainedHead + (IntToString(n) + MaintainedTail)
  }

  /** The count of a hold reads back from its line. */
  lemma MaintainedMessageReadsBack(n: int)
    ensures ParseScalingLine(MaintainedMessage(n)) == Some(Maintained(n))
  {
    MaintainedHeadSelects(IntToString(n) + MaintainedTail);
    ParseMaintainedRoundTrip(n);
  }
}

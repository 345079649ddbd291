/**
 * The two keys the reconciler recomputes for every comparison
 * (computeCompositeKeyHash and computeUpdatableHash): the decimal text of
 * Java's String.hashCode over a composite string.
 */
module Fingerprints {
  import opened Wrappers
  import opened Text
  import Severities
  import AlertStates
  import opened FindingsRecord

  const TwoTo32: int := 0x1_0000_0000
  const MinInt32: int := -0x8000_0000
  const MaxInt32: int := 0x7fff_ffff

  /** The narrowing of an unbounded integer to Java's 32-bit `int` (two's complement wrap-around). */
  function ToInt32(x: int): (r: int)
    ensures MinInt32 <= r <= MaxInt32
    ensures (x - r) % TwoTo32 == 0
  {
    var m := x % TwoTo32;
    if m > MaxInt32 then m - TwoTo32 else m
  }

  /** String.hashCode: h = 31 * h + c over the characters, in `int` arithmetic. */
  function HashCode(s: string): (h: int)
    ensures MinInt32 <= h <= MaxInt32
  {
    if |s| == 0 then 0
    else ToInt32(31 * HashCode(s[..|s| - 1]) + s[|s| - 1] as int)
  }

  /** String.valueOf(text.hashCode()). */
  function HashText(text: string): string {
    IntToString(HashCode(text))
  }

  /** The identity composite: alertNumber + "||" + title, a null field read as "". */
  function CompositeString(d: Doc): string {
    d.alertNumber.GetOr("") + "||" + d.title.GetOr("")
  }

  /** computeCompositeKeyHash. */
  function CompositeKeyHash(d: Doc): string {
    HashText(CompositeString(d))
  }

  /**
   * The mutable-state composite: the severity name and "|", the state name
   * and "|", then updatedAt, each part present only when its field is not
   * null.
   */
  function UpdatableString(d: Doc): string {
    (if d.severity.Some? then Severities.Name(d.severity.value) + "|" else "")
    + (if d.state.Some? then AlertStates.Name(d.state.value) + "|" else "")
    + d.updatedAt.GetOr("")
  }

  /** The specification of computeUpdatableHash. */
  function UpdatableKeyHash(d: Doc): string {
    HashText(UpdatableString(d))
  }

  /** computeUpdatableHash: the StringBuilder appends of the source, one present field at a time. */
  method ComputeUpdatableHash(d: Doc) returns (h: string)
    ensures h == HashText(UpdatableString(d))
  {
    ghost var severityPart := if d.severity.Some? then Severities.Name(d.severity.value) + "|" else "";
    ghost var statePart := if d.state.Some? then AlertStates.Name(d.state.value) + "|" else "";
    var sb := "";
    if d.severity.Some? {
      sb := sb + Severities.Name(d.severity.value) + "|";
    }
    assert sb == severityPart;
    if d.state.Some? {
      sb := sb + AlertStates.Name(d.state.value) + "|";
    }
    assert sb == severityPart + statePart;
    if d.updatedAt.Some? {
      sb := sb + d.updatedAt.value;
    }
    assert sb == severityPart + statePart + d.updatedAt.GetOr("");
    h := HashText(sb);
  }

  // ---------------------------------------------------------------------
  // What the keys depend on
  // ---------------------------------------------------------------------

  /** The identity composite reads alertNumber and title only, null as "". */
  lemma CompositeReadsIdentityOnly(d: Doc, e: Doc)
    requires d.alertNumber.GetOr("") == e.alertNumber.GetOr("")
    requires d.title.GetOr("") == e.title.GetOr("")
    ensures CompositeString(d) == CompositeString(e)
    ensures CompositeKeyHash(d) == CompositeKeyHash(e)
  {
  }

  /** The mutable-state composite reads severity, state and updatedAt only. */
  lemma UpdatableReadsStateOnly(d: Doc, e: Doc)
    requires d.severity == e.severity && d.state == e.state && d.updatedAt == e.updatedAt
    ensures UpdatableString(d) == UpdatableString(e)
    ensures UpdatableKeyHash(d) == UpdatableKeyHash(e)
  {
  }

  /** Two texts cut at the first occurrence of a separator absent from their heads agree piece by piece. */
  lemma {:induction false} CutAtSeparator(a1: string, b1: string, a2: string, b2: string, c: char)
    requires c !in a1 && c !in a2
    requires a1 + [c] + b1 == a2 + [c] + b2
    ensures a1 == a2 && b1 == b2
  {
    var s := a1 + [c] + b1;
    assert s[|a1|] == c && s[|a2|] == c;
    assert |a1| == |a2|;
    assert a1 == s[..|a1|] == a2;
    assert b1 == s[|a1| + 1..] == b2;
  }

  /**
   * Different (alertNumber, title) pairs give different identity composites
   * as long as the alert numbers hold no '|' (the decimal alert numbers the
   * builder produces never do); only the hash can then make them collide.
   */
  lemma CompositeInjective(d: Doc, e: Doc)
    requires '|' !in d.alertNumber.GetOr("") && '|' !in e.alertNumber.GetOr("")
    requires CompositeString(d) == CompositeString(e)
    ensures d.alertNumber.GetOr("") == e.alertNumber.GetOr("")
    ensures d.title.GetOr("") == e.title.GetOr("")
  {
    var a1, t1 := d.alertNumber.GetOr(""), d.title.GetOr("");
    var a2, t2 := e.alertNumber.GetOr(""), e.title.GetOr("");
    assert a1 + ['|'] + ("|" + t1) == CompositeString(d);
    assert a2 + ['|'] + ("|" + t2) == CompositeString(e);
    CutAtSeparator(a1, "|" + t1, a2, "|" + t2, '|');
    assert t1 == ("|" + t1)[1..];
  }

  /**
   * For records whose three mutable fields are all set (every record the
   * builder produces), equal mutable-state composites mean equal severity,
   * state and updatedAt.
   */
  lemma UpdatableInjective(d: Doc, e: Doc)
    requires d.severity.Some? && d.state.Some? && d.updatedAt.Some?
    requires e.severity.Some? && e.state.Some? && e.updatedAt.Some?
    requires UpdatableString(d) == UpdatableString(e)
    ensures d.severity == e.severity && d.state == e.state && d.updatedAt == e.updatedAt
  {
    var n1, n2 := Severities.Name(d.severity.value), Severities.Name(e.severity.value);
    var m1, m2 := AlertStates.Name(d.state.value), AlertStates.Name(e.state.value);
    var u1, u2 := d.updatedAt.value, e.updatedAt.value;
    Severities.NameInjective(d.severity.value, e.severity.value);
    Severities.NameInjective(e.severity.value, d.severity.value);
    StateNameFacts(d.state.value, e.state.value);
    StateNameFacts(e.state.value, d.state.value);
    assert n1 + ['|'] + (m1 + "|" + u1) == UpdatableString(d);
    assert n2 + ['|'] + (m2 + "|" + u2) == UpdatableString(e);
    CutAtSeparator(n1, m1 + "|" + u1, n2, m2 + "|" + u2, '|');
    assert m1 + ['|'] + u1 == m1 + "|" + u1;
    assert m2 + ['|'] + u2 == m2 + "|" + u2;
    CutAtSeparator(m1, u1, m2, u2, '|');
  }

  lemma StateNameFacts(s: AlertStates.AlertState, t: AlertStates.AlertState)
    ensures AlertStates.Name(s) == AlertStates.Name(t) ==> s == t
    ensures '|' !in AlertStates.Name(s)
  {
  }

  /**
   * A null field is left out, not replaced by a placeholder, so a record
   * without a state can share its composite with one that has a state.
   */
  lemma OmittedFieldCanAlias(d: Doc)
    requires d.severity == Some(Severities.HIGH) && d.state == Some(AlertStates.OPEN)
    requires d.updatedAt == Some("2024-01-01")
    ensures UpdatableString(d) == UpdatableString(d.(state := None, updatedAt := Some("OPEN|2024-01-01")))
  {
  }
}

/** The textual keys of the adapter: what they are made of can be read back from them. */
module SourceKeys {

  predicate ColonFree(s: string)
  {
    ':' !in s
  }

  /** The canonical text of a UUID. */
  type Uuid = s: string | |s| == 36 && ColonFree(s)
    witness "00000000-0000-0000-0000-000000000000"

  /** The first twelve hexadecimal digits of a SHA-256. */
  type Digest = s: string | |s| == 12 && ColonFree(s)
    witness "000000000000"

  const REVIEWS := "frigate.review"
  const EVENTS := "frigate.event"

  function Digits(n: nat): string
  {
    if n < 10 then [('0' as int + n) as char] else Digits(n / 10) + [('0' as int + n % 10) as char]
  }

  function Padded(n: nat, width: nat): string
  {
    if width == 0 then "" else Padded(n / 10, width - 1) + [('0' as int + n % 10) as char]
  }

  /** Seconds with six decimals, from microseconds. */
  function SecondsText(micros: int): string
  {
    var size: nat := if micros < 0 then -micros else micros;
    (if micros < 0 then "-" else "") + Digits(size / 1_000_000) + "." + Padded(size % 1_000_000, 6)
  }

  function Revision(micros: int, digest: Digest): string
  {
    SecondsText(micros) + ":" + digest
  }

  function DedupeKey(source: Uuid, namespace: string, entity: string, lifecycle: string, revision: string): string
  {
    source + ":" + namespace + ":" + entity + ":" + lifecycle + ":" + revision
  }

  function CanonicalKey(key: string): string { "canonical:" + key }

  /** "frigate:event:<id>:snapshot:<revision>" or "frigate:review:<id>:preview:<revision>". */
  function SnapshotRef(namespace: string, entity: string, revision: string): string
  {
    "frigate" + ":" + (Kind(namespace) + ":" + (entity + ":" + Medium(namespace) + ":" + revision))
  }

  function Kind(namespace: string): string { if namespace == REVIEWS then "review" else "event" }

  function Medium(namespace: string): string { if namespace == REVIEWS then "preview" else "snapshot" }

  /** The references of reviews and of objects, written out. */
  lemma SnapshotRefText(entity: string, revision: string)
    ensures SnapshotRef(REVIEWS, entity, revision) == "frigate:review:" + entity + ":preview:" + revision
    ensures SnapshotRef(EVENTS, entity, revision) == "frigate:event:" + entity + ":snapshot:" + revision
  {
    assert "frigate:review:" == "frigate" + ":" + "review" + ":" && ":preview:" == ":" + "preview" + ":";
    assert "frigate:event:" == "frigate" + ":" + "event" + ":" && ":snapshot:" == ":" + "snapshot" + ":";
    assert REVIEWS[8] != EVENTS[8];
    Regroup("frigate", "review", entity, "preview", revision);
    Regroup("frigate", "event", entity, "snapshot", revision);
  }

  lemma Regroup(a: string, b: string, c: string, d: string, e: string)
    ensures a + ":" + (b + ":" + (c + ":" + d + ":" + e)) == (a + ":" + b + ":") + c + (":" + d + ":") + e
  {
  }

  // ------------------------------------------------------------- numbers

  /** The number a text of digits stands for. */
  function Reading(text: string): int
  {
    if text == "" then 0 else 10 * Reading(text[..|text| - 1]) + (text[|text| - 1] as int - '0' as int)
  }

  lemma {:induction false} DigitsRead(n: nat)
    ensures Reading(Digits(n)) == n && Digits(n) != "" && forall i :: 0 <= i < |Digits(n)| ==> '0' <= Digits(n)[i] <= '9'
  {
    if n >= 10 {
      DigitsRead(n / 10);
      assert Digits(n)[..|Digits(n)| - 1] == Digits(n / 10);
    }
  }

  lemma {:induction false} PaddedRead(n: nat, width: nat, bound: nat)
    requires n < bound && bound == Power(width)
    ensures Reading(Padded(n, width)) == n && |Padded(n, width)| == width
    ensures forall i :: 0 <= i < width ==> '0' <= Padded(n, width)[i] <= '9'
  {
    if width > 0 {
      PaddedRead(n / 10, width - 1, Power(width - 1));
      assert Padded(n, width)[..|Padded(n, width)| - 1] == Padded(n / 10, width - 1);
    }
  }

  function Power(width: nat): nat
  {
    if width == 0 then 1 else 10 * Power(width - 1)
  }

  /** The text of a time is its whole seconds, a point, and six digits of microseconds, after a sign if it is negative. */
  lemma SecondsRead(micros: int)
    ensures exists whole, part ::
              SecondsText(micros) == (if micros < 0 then "-" else "") + whole + "." + part
              && whole != "" && |part| == 6 && (forall c :: c in whole + part ==> '0' <= c <= '9')
              && Reading(whole) * 1_000_000 + Reading(part) == if micros < 0 then -micros else micros
  {
    var size: nat := if micros < 0 then -micros else micros;
    var whole, part := Digits(size / 1_000_000), Padded(size % 1_000_000, 6);
    DigitsRead(size / 1_000_000);
    assert Power(6) == 1_000_000;
    PaddedRead(size % 1_000_000, 6, 1_000_000);
    forall c | c in whole + part ensures '0' <= c <= '9' {
      var i :| 0 <= i < |whole + part| && (whole + part)[i] == c;
    }
    assert SecondsText(micros) == (if micros < 0 then "-" else "") + whole + "." + part;
  }

  // ------------------------------------------------------------- colons

  lemma {:induction false} DigitsColonFree(n: nat)
    ensures ColonFree(Digits(n))
  {
    if n >= 10 {
      DigitsColonFree(n / 10);
    }
  }

  lemma {:induction false} PaddedColonFree(n: nat, width: nat)
    ensures ColonFree(Padded(n, width))
  {
    if width > 0 {
      PaddedColonFree(n / 10, width - 1);
    }
  }

  lemma SecondsColonFree(micros: int)
    ensures ColonFree(SecondsText(micros))
  {
    var size: nat := if micros < 0 then -micros else micros;
    DigitsColonFree(size / 1_000_000);
    PaddedColonFree(size % 1_000_000, 6);
  }

  lemma NoColonBefore(a: string, x: string)
    requires ColonFree(a)
    ensures forall i :: 0 <= i < |a| ==> (a + ":" + x)[i] != ':'
  {
    forall i | 0 <= i < |a| ensures (a + ":" + x)[i] != ':' {
      assert (a + ":" + x)[i] == a[i] && a[i] in a;
    }
  }

  lemma NoColonAfter(x: string, a: string)
    requires ColonFree(a)
    ensures forall i :: |x| < i < |x + ":" + a| ==> (x + ":" + a)[i] != ':'
  {
    forall i | |x| < i < |x + ":" + a| ensures (x + ":" + a)[i] != ':' {
      assert (x + ":" + a)[i] == a[i - |x| - 1] && a[i - |x| - 1] in a;
    }
  }

  /** What stands before the first colon of a text can be read back. */
  lemma SplitFirst(a: string, x: string, b: string, y: string)
    requires ColonFree(a) && ColonFree(b) && a + ":" + x == b + ":" + y
    ensures a == b && x == y
  {
    var left, right := a + ":" + x, b + ":" + y;
    assert left[|a|] == ':' && right[|b|] == ':';
    NoColonBefore(a, x);
    NoColonBefore(b, y);
    assert |a| == |b|;
    assert left[..|a|] == a && right[..|b|] == b;
    assert left[|a| + 1..] == x && right[|b| + 1..] == y;
  }

  lemma SplitLast(x: string, a: string, y: string, b: string)
    requires ColonFree(a) && ColonFree(b) && x + ":" + a == y + ":" + b
    ensures a == b && x == y
  {
    var left, right := x + ":" + a, y + ":" + b;
    assert left[|x|] == ':' && right[|y|] == ':';
    NoColonAfter(x, a);
    NoColonAfter(y, b);
    assert |x| == |y|;
    assert left[..|x|] == x && right[..|y|] == y;
    assert left[|x| + 1..] == a && right[|y| + 1..] == b;
  }

  ghost predicate IsRevision(revision: string)
  {
    exists time, digest :: ColonFree(time) && ColonFree(digest) && revision == time + ":" + digest
  }

  /** Digest and time of a revision can be read back from the right, whatever stands before them. */
  lemma SplitRevision(x: string, r: string, y: string, q: string)
    requires IsRevision(r) && IsRevision(q) && x + ":" + r == y + ":" + q
    ensures x == y && r == q
  {
    var t, d :| ColonFree(t) && ColonFree(d) && r == t + ":" + d;
    var u, e :| ColonFree(u) && ColonFree(e) && q == u + ":" + e;
    assert x + ":" + r == (x + ":" + t) + ":" + d;
    assert y + ":" + q == (y + ":" + u) + ":" + e;
    SplitLast(x + ":" + t, d, y + ":" + u, e);
    SplitLast(x, t, y, u);
  }

  lemma RevisionHasForm(micros: int, digest: Digest)
    ensures IsRevision(Revision(micros, digest))
  {
    SecondsColonFree(micros);
    assert ColonFree(SecondsText(micros)) && ColonFree(digest);
  }

  /**
   * The dedupe key says source, namespace, entity, lifecycle and revision exactly, even though
   * entity ids and revisions contain colons themselves.
   */
  lemma DedupeKeyInjective(s1: Uuid, n1: string, e1: string, l1: string, r1: string,
                           s2: Uuid, n2: string, e2: string, l2: string, r2: string)
    requires ColonFree(n1) && ColonFree(n2) && ColonFree(l1) && ColonFree(l2)
    requires IsRevision(r1) && IsRevision(r2)
    ensures DedupeKey(s1, n1, e1, l1, r1) == DedupeKey(s2, n2, e2, l2, r2)
            <==> s1 == s2 && n1 == n2 && e1 == e2 && l1 == l2 && r1 == r2
  {
    if DedupeKey(s1, n1, e1, l1, r1) == DedupeKey(s2, n2, e2, l2, r2) {
      var x1, x2 := e1 + ":" + l1, e2 + ":" + l2;
      var y1, y2 := n1 + ":" + (x1 + ":" + r1), n2 + ":" + (x2 + ":" + r2);
      assert DedupeKey(s1, n1, e1, l1, r1) == s1 + ":" + y1;
      assert DedupeKey(s2, n2, e2, l2, r2) == s2 + ":" + y2;
      SplitFirst(s1, y1, s2, y2);
      SplitFirst(n1, x1 + ":" + r1, n2, x2 + ":" + r2);
      SplitRevision(x1, r1, x2, r2);
      SplitLast(e1, l1, e2, l2);
    }
  }

  /** So does the evidence reference, which leaves out source and lifecycle. */
  lemma SnapshotRefInjective(n1: string, e1: string, r1: string, n2: string, e2: string, r2: string)
    requires n1 in {REVIEWS, EVENTS} && n2 in {REVIEWS, EVENTS} && IsRevision(r1) && IsRevision(r2)
    ensures SnapshotRef(n1, e1, r1) == SnapshotRef(n2, e2, r2) <==> n1 == n2 && e1 == e2 && r1 == r2
  {
    if SnapshotRef(n1, e1, r1) == SnapshotRef(n2, e2, r2) {
      var t1, t2 := e1 + ":" + Medium(n1), e2 + ":" + Medium(n2);
      SplitFirst("frigate", Kind(n1) + ":" + (t1 + ":" + r1), "frigate", Kind(n2) + ":" + (t2 + ":" + r2));
      SplitFirst(Kind(n1), t1 + ":" + r1, Kind(n2), t2 + ":" + r2);
      assert "review"[0] != "event"[0];
      SplitRevision(t1, r1, t2, r2);
      SplitLast(e1, Medium(n1), e2, Medium(n2));
    }
  }

  lemma CanonicalKeyInjective(a: string, b: string)
    ensures CanonicalKey(a) == CanonicalKey(b) <==> a == b
  {
    assert CanonicalKey(a)[10..] == a && CanonicalKey(b)[10..] == b;
  }
}

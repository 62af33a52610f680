/** One identifier at the end that hands it out, with the two callers of
    maybeRemoveStream taken apart: the callback of Close and the handler of the closing
    frame each change the session's state in one locked section, look at it in another
    and remove the entry in a third. The peer sends one closing frame per use.
 */
module Removals {
  import opened Frames

  /** Where a caller of maybeRemoveStream is. */
  datatype Look = NotYet | SawOpen | SawClosed | Removed

  /** `closed`: the locked section of Close is past; `ended`: RemoteClose is past. */
  datatype Use = Use(closed: bool, ended: bool, callback: Look, reader: Look)

  datatype Ident = Ident(uses: seq<Use>, live: Option<nat>, free: nat, used: bool)

  datatype Event =
    | Opens
    | Closes(n: nat)
    | CallbackLooks(n: nat)
    | CallbackRemoves(n: nat)
    | FinArrives(n: nat)
    | ReaderLooks(n: nat)
    | ReaderRemoves(n: nat)

  const FRESH := Ident([], None, 0, false)

  predicate CanDo(s: Ident, e: Event) {
    match e
    case Opens => s.free > 0 || !s.used
    case Closes(n) => n < |s.uses| && !s.uses[n].closed
    case CallbackLooks(n) => n < |s.uses| && s.uses[n].closed && s.uses[n].callback.NotYet?
    case CallbackRemoves(n) => n < |s.uses| && s.uses[n].callback.SawClosed?
    case FinArrives(n) => n < |s.uses| && s.live == Some(n) && !s.uses[n].ended
    case ReaderLooks(n) => n < |s.uses| && s.uses[n].ended && s.uses[n].reader.NotYet?
    case ReaderRemoves(n) => n < |s.uses| && s.uses[n].reader.SawClosed?
  }

  function Sees(u: Use): Look {
    if u.closed && u.ended then SawClosed else SawOpen
  }

  function With(s: Ident, n: nat, u: Use): Ident
    requires n < |s.uses|
  {
    s.(uses := s.uses[n := u])
  }

  /** delete(streams, x) and freeID(x): the entry goes, whichever use it is. */
  function Drop(s: Ident): Ident {
    s.(live := None, free := s.free + 1)
  }

  function Do(s: Ident, e: Event): Ident
    requires CanDo(s, e)
  {
    match e
    case Opens =>
      Ident(s.uses + [Use(false, false, NotYet, NotYet)], Some(|s.uses|), if s.free > 0 then s.free - 1 else 0, true)
    case Closes(n) => With(s, n, s.uses[n].(closed := true))
    case CallbackLooks(n) => With(s, n, s.uses[n].(callback := Sees(s.uses[n])))
    case CallbackRemoves(n) => Drop(With(s, n, s.uses[n].(callback := Removed)))
    case FinArrives(n) => With(s, n, s.uses[n].(ended := true))
    case ReaderLooks(n) => With(s, n, s.uses[n].(reader := Sees(s.uses[n])))
    case ReaderRemoves(n) => Drop(With(s, n, s.uses[n].(reader := Removed)))
  }

  predicate CanRun(s: Ident, es: seq<Event>)
    decreases es
  {
    es == [] || (CanDo(s, es[0]) && CanRun(Do(s, es[0]), es[1..]))
  }

  predicate Acted(l: Look) {
    l.SawClosed? || l.Removed?
  }

  /** A use that some caller has taken out of the table. */
  predicate Gone(u: Use) {
    u.callback.Removed? || u.reader.Removed?
  }

  /** The second of the two callers looks, and both have seen the use closed: each looked
      after both the locked section of Close and RemoteClose. */
  predicate Doubles(s: Ident, e: Event)
    requires CanDo(s, e)
  {
    match e
    case CallbackLooks(n) => Sees(s.uses[n]).SawClosed? && Acted(s.uses[n].reader)
    case ReaderLooks(n) => Sees(s.uses[n]).SawClosed? && Acted(s.uses[n].callback)
    case _ => false
  }

  predicate Tidy(s: Ident, es: seq<Event>)
    requires CanRun(s, es)
    decreases es
  {
    es == [] || (!Doubles(s, es[0]) && Tidy(Do(s, es[0]), es[1..]))
  }

  /** The identifier is live or free, once, if it was handed out; and it is live exactly
      as long as nobody took its last use out of the table. */
  predicate Kept(s: Ident) {
    && s.free + (if s.live.Some? then 1 else 0) == (if s.used then 1 else 0)
    && (s.uses != [] ==> s.live == if Gone(s.uses[|s.uses| - 1]) then None else Some(|s.uses| - 1))
  }

  /** The callers that have seen use `n` closed go on to remove the entry. */
  function Finish(s: Ident, n: nat): Ident
    requires n < |s.uses|
  {
    var s1 := if s.uses[n].callback.SawClosed? then Do(s, CallbackRemoves(n)) else s;
    if s1.uses[n].reader.SawClosed? then Do(s1, ReaderRemoves(n)) else s1
  }

  predicate KeptToTheEnd(s: Ident) {
    Kept(s) && forall n: nat :: n < |s.uses| ==> Kept(Finish(s, n))
  }

  predicate KeptThroughout(s: Ident, es: seq<Event>)
    requires CanRun(s, es)
    decreases es
  {
    KeptToTheEnd(s) && (es != [] ==> KeptThroughout(Do(s, es[0]), es[1..]))
  }

  // ----------------------------------------------------------------- invariant

  /** What the looks say of the state, and that at most one caller acts. */
  predicate Single(u: Use) {
    && (Acted(u.callback) || Acted(u.reader) ==> u.closed && u.ended)
    && !(Acted(u.callback) && Acted(u.reader))
  }

  predicate Inv(s: Ident) {
    && Kept(s)
    && (s.used <==> s.uses != [])
    && (forall i :: 0 <= i < |s.uses| ==> Single(s.uses[i]))
    && (forall i :: 0 <= i < |s.uses| - 1 ==> Gone(s.uses[i]))
  }

  lemma InvKept(s: Ident, e: Event)
    requires Inv(s) && CanDo(s, e) && !Doubles(s, e)
    ensures Inv(Do(s, e))
  {
    match e
    case Opens =>
    case Closes(n) =>
    case CallbackLooks(n) =>
    case CallbackRemoves(n) => assert n == |s.uses| - 1;
    case FinArrives(n) =>
    case ReaderLooks(n) =>
    case ReaderRemoves(n) => assert n == |s.uses| - 1;
  }

  lemma InvToTheEnd(s: Ident)
    requires Inv(s)
    ensures KeptToTheEnd(s)
  {
    forall n: nat | n < |s.uses| ensures Kept(Finish(s, n)) {
      if s.uses[n].callback.SawClosed? {
        InvKept(s, CallbackRemoves(n));
      } else if s.uses[n].reader.SawClosed? {
        InvKept(s, ReaderRemoves(n));
      }
    }
  }

  /** When both callers have seen the use closed, what they go on to do is where it
      shows: the identifier is freed twice, or the next use is taken out of the table. */
  lemma DoubleShows(s: Ident, e: Event)
    requires Inv(s) && CanDo(s, e) && Doubles(s, e)
    ensures !KeptToTheEnd(Do(s, e))
  {
    var s', n, last := Do(s, e), e.n, |s.uses| - 1;
    var f := Finish(s', n);
    assert f.live.None? && |f.uses| == |s.uses|;
    if n < last && !Gone(s.uses[last]) {
      assert f.uses[last] == s.uses[last];
    } else {
      assert f.free >= 2;
    }
    assert !Kept(f);
  }

  lemma {:induction false} KeptExactly(s: Ident, es: seq<Event>)
    requires Inv(s) && CanRun(s, es)
    ensures KeptThroughout(s, es) <==> Tidy(s, es)
    decreases |es|
  {
    InvToTheEnd(s);
    hide Inv, KeptToTheEnd, Do, CanDo, Doubles;
    if es != [] {
      if Doubles(s, es[0]) {
        DoubleShows(s, es[0]);
      } else {
        InvKept(s, es[0]);
        KeptExactly(Do(s, es[0]), es[1..]);
      }
    }
  }

  /** Exactly when an identifier is conserved, with nothing taken in one step that the
      code does in two: in a run from the start the identifier stays live or free once,
      and its last use in the table, through whatever removals are under way, if and only
      if no use is seen closed by both callers of maybeRemoveStream. */
  lemma ConservedExactlyWhenSeenOnce(es: seq<Event>)
    requires CanRun(FRESH, es)
    ensures KeptThroughout(FRESH, es) <==> Tidy(FRESH, es)
  {
    KeptExactly(FRESH, es);
  }

  // ----------------------------------------------------------------- two windows

  /** The closing frame lands inside Close: Close past its locked section, RemoteClose, the
      handler looks and removes, the callback looks. */
  lemma FinInsideClose() returns (es: seq<Event>)
    ensures es == [Opens, Closes(0), FinArrives(0), ReaderLooks(0), ReaderRemoves(0), CallbackLooks(0)]
    ensures CanRun(FRESH, es) && !Tidy(FRESH, es)
  {
    es := [Opens, Closes(0), FinArrives(0), ReaderLooks(0), ReaderRemoves(0), CallbackLooks(0)];
    Unfold(es);
  }

  /** Close lands inside the handler: RemoteClose, the locked section of Close, the
      callback looks and removes, the handler looks. */
  lemma CloseInsideHandler() returns (es: seq<Event>)
    ensures es == [Opens, FinArrives(0), Closes(0), CallbackLooks(0), CallbackRemoves(0), ReaderLooks(0)]
    ensures CanRun(FRESH, es) && !Tidy(FRESH, es)
  {
    es := [Opens, FinArrives(0), Closes(0), CallbackLooks(0), CallbackRemoves(0), ReaderLooks(0)];
    Unfold(es);
  }

  /** Six steps written out. */
  lemma Unfold(es: seq<Event>)
    requires |es| == 6
    ensures es[1..][1..] == es[2..] && es[2..][1..] == es[3..] && es[3..][1..] == es[4..]
    ensures es[4..][1..] == es[5..] && es[5..][1..] == []
  {
  }
}

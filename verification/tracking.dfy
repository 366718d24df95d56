/**
 * Tracking sets of command ids: `upgrade` and `status` send a batch of
 * commands, keep the ids still awaiting a final answer, and read answers until
 * the set is empty.
 */
module Tracking {
  import opened Wrappers
  import opened Messages

  /** A final answer (Ok or Error) to `id`: what retires `id` from a tracking set. */
  predicate Concludes(r: Option<Answer>, id: string)
  {
    r.Some? && r.value.id == id && r.value.status != Processing
  }

  /** The ids a final answer retires: its own id, or none for silence and Processing. */
  function Retired(r: Option<Answer>): set<string>
  {
    if r.Some? && r.value.status != Processing then {r.value.id} else {}
  }

  /** What is left of a tracking set `ids` once the answers `a` have been read. */
  function Outstanding(ids: set<string>, a: seq<Option<Answer>>): (r: set<string>)
    ensures r <= ids
  {
    if a == [] then ids
    else Outstanding(ids, a[..|a| - 1]) - Retired(a[|a| - 1])
  }

  /** An id stays outstanding exactly as long as no final answer to it has been read. */
  lemma {:induction false} OutstandingMeans(ids: set<string>, a: seq<Option<Answer>>, x: string)
    ensures x in Outstanding(ids, a) <==> x in ids && forall j | 0 <= j < |a| :: !Concludes(a[j], x)
  {
    if a != [] {
      var init := a[..|a| - 1];
      OutstandingMeans(ids, init, x);
      assert forall j | 0 <= j < |init| :: init[j] == a[j];
    }
  }

  /** The tracking sets only shrink as answers are read. */
  lemma {:induction false} OutstandingShrinks(ids: set<string>, a: seq<Option<Answer>>, b: seq<Option<Answer>>)
    ensures Outstanding(ids, a + b) <= Outstanding(ids, a)
  {
    if b == [] {
      assert a + b == a;
    } else {
      var init := b[..|b| - 1];
      assert (a + b)[..|a + b| - 1] == a + init;
      assert Outstanding(ids, a + b) == Outstanding(ids, a + init) - Retired(b[|b| - 1]);
      OutstandingShrinks(ids, a, init);
    }
  }

  /** Silence, Processing answers and answers to ids not tracked leave a set as it was. */
  lemma OutstandingIgnores(ids: set<string>, a: seq<Option<Answer>>, r: Option<Answer>)
    requires r.None? || r.value.status == Processing || r.value.id !in Outstanding(ids, a)
    ensures Outstanding(ids, a + [r]) == Outstanding(ids, a)
  {
    assert (a + [r])[..|a|] == a;
  }


  /** The ids of a batch of messages. */
  function IdsOf(ms: seq<ConfigMessage>): set<string>
  {
    if ms == [] then {}
    else IdsOf(ms[..|ms| - 1]) + {ms[|ms| - 1].id}
  }

  /** Every id of the batch comes from one of its messages. */
  lemma {:induction false} IdsOfFrom(ms: seq<ConfigMessage>, x: string)
    requires x in IdsOf(ms)
    ensures exists i | 0 <= i < |ms| :: ms[i].id == x
  {
    if x != ms[|ms| - 1].id {
      IdsOfFrom(ms[..|ms| - 1], x);
      var i :| 0 <= i < |ms| - 1 && ms[..|ms| - 1][i].id == x;
      assert ms[i].id == x;
    }
  }

  lemma IdsOfGrow(ms: seq<ConfigMessage>, m: ConfigMessage)
    ensures IdsOf(ms + [m]) == IdsOf(ms) + {m.id}
  {
    assert (ms + [m])[..|ms|] == ms;
  }

  /** The status of the first final answer to `x` among `a`, if there is one. */
  function FirstConclusion(a: seq<Option<Answer>>, x: string): (r: Option<MessageStatus>)
    ensures r.Some? <==> exists j | 0 <= j < |a| :: Concludes(a[j], x)
    ensures r.Some? ==> r.value != Processing
  {
    if a == [] then None
    else if Concludes(a[0], x) then Some(a[0].value.status)
    else
      assert forall j | 0 <= j < |a| - 1 :: a[1..][j] == a[j + 1];
      FirstConclusion(a[1..], x)
  }

  /** Reading one more answer changes the first conclusion only if there was none yet. */
  lemma {:induction false} FirstConclusionExtend(a: seq<Option<Answer>>, r: Option<Answer>, x: string)
    ensures FirstConclusion(a + [r], x)
         == if FirstConclusion(a, x).Some? then FirstConclusion(a, x)
            else if Concludes(r, x) then Some(r.value.status)
            else None
  {
    if a != [] {
      assert (a + [r])[1..] == a[1..] + [r];
      FirstConclusionExtend(a[1..], r, x);
    }
  }
}

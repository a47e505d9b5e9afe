/** The coordinator's bookkeeping of outstanding timers: the existence test and removal by id. */
module TimerList {
  import opened GameTypes

  /** timerExists: a timer is there to act on when it is given and carries a non-zero id. */
  predicate TimerExists(t: Option<Timer>)
  {
    t.Some? && t.value.timerId.Some? && t.value.timerId.value != 0
  }

  /** The entries whose id differs from the given one, in their original order; entries without
      an id are kept. */
  function WithoutId(timers: seq<Timer>, id: int): (r: seq<Timer>)
    ensures |r| <= |timers|
  {
    if timers == [] then []
    else if timers[0].timerId == Some(id) then WithoutId(timers[1..], id)
    else [timers[0]] + WithoutId(timers[1..], id)
  }

  /** Exactly the entries with another id (or none) are kept. */
  lemma {:induction false} WithoutIdMembers(timers: seq<Timer>, id: int)
    ensures forall t :: t in WithoutId(timers, id) <==> t in timers && t.timerId != Some(id)
  {
    if timers != [] {
      WithoutIdMembers(timers[1..], id);
      assert timers == [timers[0]] + timers[1..];
    }
  }

  /** Removing by id splits over concatenation, so the kept entries stay in their original order. */
  lemma {:induction false} WithoutIdAppend(a: seq<Timer>, b: seq<Timer>, id: int)
    ensures WithoutId(a + b, id) == WithoutId(a, id) + WithoutId(b, id)
  {
    if a != [] {
      assert (a + b)[1..] == a[1..] + b;
      WithoutIdAppend(a[1..], b, id);
    } else {
      assert a + b == b;
    }
  }

  /** With no entry carrying the id, removal changes nothing. */
  lemma {:induction false} WithoutIdAbsent(timers: seq<Timer>, id: int)
    requires forall t :: t in timers ==> t.timerId != Some(id)
    ensures WithoutId(timers, id) == timers
  {
    if timers != [] {
      assert timers[0] in timers;
      assert forall t :: t in timers[1..] ==> t in timers;
      WithoutIdAbsent(timers[1..], id);
      assert [timers[0]] + timers[1..] == timers;
    }
  }

  /** Removing an id twice is the same as removing it once. */
  lemma WithoutIdIdempotent(timers: seq<Timer>, id: int)
    ensures WithoutId(WithoutId(timers, id), id) == WithoutId(timers, id)
  {
    WithoutIdMembers(timers, id);
    WithoutIdAbsent(WithoutId(timers, id), id);
  }

  /** A timer that was added and then removed leaves the list as removal alone would. */
  lemma RemoveAfterAdd(timers: seq<Timer>, t: Timer, id: int)
    requires t.timerId == Some(id)
    ensures WithoutId(timers + [t], id) == WithoutId(timers, id)
  {
    WithoutIdAppend(timers, [t], id);
    assert WithoutId([t], id) == WithoutId([], id);
  }

  /** removeTimer's effect on the list: when the timer exists, every entry with its id goes and
      the others stay; otherwise nothing happens. */
  function RemoveTimerFrom(timers: seq<Timer>, t: Option<Timer>): (r: seq<Timer>)
    ensures !TimerExists(t) ==> r == timers
  {
    if TimerExists(t) then WithoutId(timers, t.value.timerId.value) else timers
  }

  /** removeTimer's promise: an existing timer's id is gone afterwards and every other entry is kept. */
  lemma RemoveTimerFromMembers(timers: seq<Timer>, t: Option<Timer>)
    ensures TimerExists(t) ==> forall e :: e in RemoveTimerFrom(timers, t) <==> e in timers && e.timerId != t.value.timerId
  {
    if TimerExists(t) {
      WithoutIdMembers(timers, t.value.timerId.value);
    }
  }

  /** The clearTimeout call removeTimer makes, if any. */
  function ClearCalls(t: Option<Timer>): (calls: seq<Call>)
    ensures |calls| <= 1
    ensures calls != [] <==> TimerExists(t)
    ensures calls != [] ==> calls[0] == ClearTimeout(t.value.timerId.value)
  {
    if TimerExists(t) then [ClearTimeout(t.value.timerId.value)] else []
  }

  /** The pause call pauseTimer makes, if any: only a timer that exists is paused. */
  function PauseCalls(t: Option<Timer>): (calls: seq<Call>)
    ensures calls != [] <==> TimerExists(t)
    ensures calls != [] ==> calls == [PauseCall(t.value.timerId.value)]
  {
    if TimerExists(t) then [PauseCall(t.value.timerId.value)] else []
  }

  /** The resume call resumeTimer makes, if any: only a timer that exists is resumed. */
  function ResumeCalls(t: Option<Timer>): (calls: seq<Call>)
    ensures calls != [] <==> TimerExists(t)
    ensures calls != [] ==> calls == [ResumeCall(t.value.timerId.value)]
  {
    if TimerExists(t) then [ResumeCall(t.value.timerId.value)] else []
  }

  /** Removing the round's four timers (fruit, ghost cycle, ghost release, ghost flash), one after the other. */
  function RemoveRoundTimers(timers: seq<Timer>, fruit: Option<Timer>, cycle: Option<Timer>,
                             endIdle: Option<Timer>, flash: Option<Timer>): seq<Timer>
  {
    RemoveTimerFrom(RemoveTimerFrom(RemoveTimerFrom(RemoveTimerFrom(timers, fruit), cycle), endIdle), flash)
  }

  /** The clearTimeout calls made while removing the round's four timers, in the same order. */
  function RoundTimerCalls(fruit: Option<Timer>, cycle: Option<Timer>, endIdle: Option<Timer>, flash: Option<Timer>): seq<Call>
  {
    ClearCalls(fruit) + ClearCalls(cycle) + ClearCalls(endIdle) + ClearCalls(flash)
  }

  /** After the round's timers are removed, none of their ids is left and every other entry is kept. */
  lemma RoundTimersGone(timers: seq<Timer>, fruit: Option<Timer>, cycle: Option<Timer>,
                        endIdle: Option<Timer>, flash: Option<Timer>)
    ensures forall e :: e in RemoveRoundTimers(timers, fruit, cycle, endIdle, flash) <==>
      && e in timers
      && (TimerExists(fruit) ==> e.timerId != fruit.value.timerId)
      && (TimerExists(cycle) ==> e.timerId != cycle.value.timerId)
      && (TimerExists(endIdle) ==> e.timerId != endIdle.value.timerId)
      && (TimerExists(flash) ==> e.timerId != flash.value.timerId)
  {
    var afterFruit := RemoveTimerFrom(timers, fruit);
    var afterCycle := RemoveTimerFrom(afterFruit, cycle);
    var afterEndIdle := RemoveTimerFrom(afterCycle, endIdle);
    RemoveTimerFromMembers(timers, fruit);
    RemoveTimerFromMembers(afterFruit, cycle);
    RemoveTimerFromMembers(afterCycle, endIdle);
    RemoveTimerFromMembers(afterEndIdle, flash);
  }
}

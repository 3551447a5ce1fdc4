/** `handleMutations`: a batch of DOM mutation records schedules a rescan when
    some record of type `childList` added an element that is a price container
    or holds one; the rescan is debounced through a single timer handle, so at
    most one rescan is ever pending. Both content scripts carry the same
    function (content.js:60-89, archives/dist_v1.0.5/content.js:89-118). */
module MutationWatch {
  import opened Wrappers
  import PriceScan

  /** A DOM node as far as the match rule looks at it: elements with their
      classes and children; every other node type is inert. */
  datatype Node =
    | Element(classes: set<string>, children: seq<Node>)
    | Text(data: string)
    | Comment(data: string)

  datatype MutationKind = ChildList | Attributes | CharacterData

  datatype MutationRecord = MutationRecord(kind: MutationKind, addedNodes: seq<Node>)

  /** `n` is a price container or has one somewhere below it. */
  predicate SubtreeHasContainer(n: Node)
    decreases n
  {
    n.Element? &&
    (PriceScan.ContainerClass in n.classes ||
     exists i :: 0 <= i < |n.children| && SubtreeHasContainer(n.children[i]))
  }

  /** `n.querySelector(".classified-price-container")` finds something: a
      proper descendant of `n` is a price container. */
  predicate HasContainerDescendant(n: Node) {
    n.Element? && exists i :: 0 <= i < |n.children| && SubtreeHasContainer(n.children[i])
  }

  /** The test applied to each added node: an element whose class list holds
      the container class, or else one whose `querySelector` finds a container. */
  predicate Qualifies(n: Node) {
    n.Element? && (PriceScan.ContainerClass in n.classes || HasContainerDescendant(n))
  }

  predicate AddsQualifying(r: MutationRecord) {
    r.kind == ChildList && exists k :: 0 <= k < |r.addedNodes| && Qualifies(r.addedNodes[k])
  }

  /** The batch asks for a rescan. */
  predicate Triggers(mutations: seq<MutationRecord>) {
    exists i :: 0 <= i < |mutations| && AddsQualifying(mutations[i])
  }

  /** The nested loops that compute `shouldConvert`. */
  method ShouldConvert(mutations: seq<MutationRecord>) returns (shouldConvert: bool)
    ensures shouldConvert <==> Triggers(mutations)
  {
    shouldConvert := false;
    var m := 0;
    while m < |mutations|
      invariant 0 <= m <= |mutations|
      invariant shouldConvert <==> exists i :: 0 <= i < m && AddsQualifying(mutations[i])
    {
      var mutation := mutations[m];
      if mutation.kind == ChildList && |mutation.addedNodes| > 0 {
        var found := false;
        var k := 0;
        while k < |mutation.addedNodes|
          invariant 0 <= k <= |mutation.addedNodes|
          invariant found <==> exists j :: 0 <= j < k && Qualifies(mutation.addedNodes[j])
        {
          var node := mutation.addedNodes[k];
          if node.Element? {
            if PriceScan.ContainerClass in node.classes {
              found := true;
            } else if HasContainerDescendant(node) {
              found := true;
            }
          }
          k := k + 1;
        }
        shouldConvert := shouldConvert || found;
      }
      m := m + 1;
    }
  }

  /** The two branches of the test together say: the added node's subtree holds a price container. */
  lemma QualifiesIffSubtree(n: Node)
    ensures Qualifies(n) <==> SubtreeHasContainer(n)
  {
  }

  /** Only elements count: a batch that adds text and comment nodes alone never triggers. */
  lemma NonElementsNeverTrigger(mutations: seq<MutationRecord>)
    requires forall i, k :: 0 <= i < |mutations| && 0 <= k < |mutations[i].addedNodes| ==> !mutations[i].addedNodes[k].Element?
    ensures !Triggers(mutations)
  {
  }

  /** Records are judged one by one: splitting a batch does not change whether it triggers. */
  lemma TriggersSplit(first: seq<MutationRecord>, second: seq<MutationRecord>)
    ensures Triggers(first + second) <==> Triggers(first) || Triggers(second)
  {
    if Triggers(first + second) {
      var i :| 0 <= i < |first + second| && AddsQualifying((first + second)[i]);
      if i >= |first| {
        assert second[i - |first|] == (first + second)[i];
      }
    }
    if Triggers(first) {
      var i :| 0 <= i < |first| && AddsQualifying(first[i]);
      assert (first + second)[i] == first[i];
    }
    if Triggers(second) {
      var i :| 0 <= i < |second| && AddsQualifying(second[i]);
      assert (first + second)[|first| + i] == second[i];
    }
  }

  /** The span the scan appends: an element of the annotation class holding its text. */
  function AnnotationSpan(text: string): Node {
    Element({PriceScan.AnnotationClass}, [Text(text)])
  }

  /** The scan's own appends are seen by the observer but never schedule
      another scan. */
  lemma AnnotationAppendsDoNotTrigger(texts: seq<string>)
    ensures !Triggers(seq(|texts|, i requires 0 <= i < |texts| => MutationRecord(ChildList, [AnnotationSpan(texts[i])])))
  {
    var batch := seq(|texts|, i requires 0 <= i < |texts| => MutationRecord(ChildList, [AnnotationSpan(texts[i])]));
    forall i | 0 <= i < |batch| ensures !AddsQualifying(batch[i]) {
      var span := AnnotationSpan(texts[i]);
      assert batch[i].addedNodes == [span];
      assert PriceScan.ContainerClass != PriceScan.AnnotationClass;
      assert !SubtreeHasContainer(span.children[0]);
      assert !Qualifies(span);
    }
  }

  /** How long `handleMutations` waits before rescanning, in milliseconds. */
  const DebounceDelay: int := 500

  /** The abstract debounce state: no rescan scheduled, or one due at `deadline`. */
  datatype Pending = Idle | PendingAt(deadline: int)

  /** `handleMutations` at time `now`: a triggering batch replaces whatever was
      pending by one rescan 500 ms from now; any other batch changes nothing. */
  function OnMutations(p: Pending, now: int, mutations: seq<MutationRecord>): Pending {
    if Triggers(mutations) then PendingAt(now + DebounceDelay) else p
  }

  /** The host's clock reaching `now`: a pending rescan whose deadline has
      passed runs (`fired`), and nothing is pending afterwards. */
  datatype TickResult = TickResult(pending: Pending, fired: bool)

  function OnTick(p: Pending, now: int): TickResult {
    if p.PendingAt? && p.deadline <= now then TickResult(Idle, true) else TickResult(p, false)
  }

  /** A batch of mutation records delivered to the observer at `time`. */
  datatype Arrival = Arrival(time: int, mutations: seq<MutationRecord>)

  /** A series of arrivals, the clock ticking just before each: the resulting
      state and the number of rescans that ran. */
  function Burst(p: Pending, arrivals: seq<Arrival>): (Pending, nat)
    decreases |arrivals|
  {
    if arrivals == [] then (p, 0)
    else
      var (before, fires) := Burst(p, arrivals[..|arrivals| - 1]);
      var last := arrivals[|arrivals| - 1];
      var t := OnTick(before, last.time);
      (OnMutations(t.pending, last.time, last.mutations), fires + (if t.fired then 1 else 0))
  }

  /** Triggering batches that arrive less than 500 ms apart run no rescan while
      they keep coming, and leave exactly one pending, 500 ms after the last. */
  lemma {:induction false} BurstCoalesces(arrivals: seq<Arrival>)
    requires |arrivals| > 0
    requires forall i :: 0 <= i < |arrivals| ==> Triggers(arrivals[i].mutations)
    requires forall i :: 0 < i < |arrivals| ==>
      arrivals[i - 1].time <= arrivals[i].time < arrivals[i - 1].time + DebounceDelay
    ensures Burst(Idle, arrivals) == (PendingAt(arrivals[|arrivals| - 1].time + DebounceDelay), 0)
    decreases |arrivals|
  {
    if |arrivals| > 1 {
      BurstCoalesces(arrivals[..|arrivals| - 1]);
    } else {
      assert arrivals[..0] == [];
    }
  }

  /** After the burst, the pending rescan runs once, at its deadline and not
      before, and then nothing is pending. */
  lemma RescanRunsOnceAfterQuiet(last: int, now: int)
    ensures OnTick(PendingAt(last + DebounceDelay), now).fired <==> now >= last + DebounceDelay
    ensures now >= last + DebounceDelay ==> OnTick(OnTick(PendingAt(last + DebounceDelay), now).pending, now).fired == false
  {
  }

  /** The timer bookkeeping of `handleMutations`: the handle it stores on itself
      (`handleMutations.timeoutId`) and the host's table of armed timers it
      created, each handle mapped to its deadline. */
  class Debouncer {
    var timeoutId: Option<nat>
    var timers: map<nat, int>
    var nextHandle: nat

    /** Every armed timer is the one the stored handle names; handles are fresh. */
    ghost predicate Valid()
      reads this
    {
      (forall h :: h in timers ==> timeoutId == Some(h)) &&
      (timeoutId.Some? ==> timeoutId.value < nextHandle)
    }

    /** The abstract state: the deadline of the armed timer, if any. */
    function View(): Pending
      reads this
    {
      if timeoutId.Some? && timeoutId.value in timers then PendingAt(timers[timeoutId.value]) else Idle
    }

    /** Nothing armed, no handle stored yet (`timeoutId` is `undefined`). */
    constructor ()
      ensures Valid() && View() == Idle
      ensures timeoutId == None && timers == map[]
    {
      timeoutId := None;
      timers := map[];
      nextHandle := 1;
    }

    /** At most one rescan is ever armed. */
    lemma AtMostOnePending()
      requires Valid()
      ensures |timers| <= 1
      ensures |timers| == 1 <==> View().PendingAt?
    {
      if timeoutId.Some? && timeoutId.value in timers {
        assert timers.Keys == {timeoutId.value};
      } else {
        assert timers.Keys == {};
      }
    }

    /** `handleMutations(mutations)` at time `now`: on a triggering batch the
        stored timer is cleared and a new one is armed for `now + 500`. */
    method HandleMutations(mutations: seq<MutationRecord>, now: int) returns (armed: bool)
      requires Valid()
      modifies this
      ensures Valid()
      ensures armed <==> Triggers(mutations)
      ensures View() == OnMutations(old(View()), now, mutations)
      ensures armed ==> timers == map[old(nextHandle) := now + DebounceDelay] && timeoutId == Some(old(nextHandle))
      ensures !armed ==> timeoutId == old(timeoutId) && timers == old(timers) && nextHandle == old(nextHandle)
    {
      armed := ShouldConvert(mutations);
      if armed {
        // clearTimeout(handleMutations.timeoutId)
        if timeoutId.Some? {
          timers := timers - {timeoutId.value};
        }
        // handleMutations.timeoutId = setTimeout(convertPrices, 500)
        var handle := nextHandle;
        timers := timers[handle := now + DebounceDelay];
        timeoutId := Some(handle);
        nextHandle := nextHandle + 1;
        assert timers == map[handle := now + DebounceDelay];
      }
    }

    /** The host running due timers at time `now`; `fired` says the rescan
        callback is to run. The stored handle stays behind, stale. */
    method Tick(now: int) returns (fired: bool)
      requires Valid()
      modifies this
      ensures Valid()
      ensures fired == OnTick(old(View()), now).fired
      ensures View() == OnTick(old(View()), now).pending
      ensures timeoutId == old(timeoutId) && nextHandle == old(nextHandle)
    {
      fired := false;
      if timeoutId.Some? && timeoutId.value in timers && timers[timeoutId.value] <= now {
        timers := timers - {timeoutId.value};
        fired := true;
      }
    }
  }
}

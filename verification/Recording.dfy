/** The recording tee around an upstream body: every poll passes the frame
    on and decides whether the completed body is handed to a cache write. */
module Recording {
  import opened Basics
  import opened Base64

  /** One result of polling the inner body. `last`: after this frame the
      inner body reports the end of its stream. */
  datatype Event =
    | Data(data: Bytes, last: bool)
    | Trailers(last: bool)
    | Error
    | End
    | Pending

  /** The tee: its buffer, whether a write is still wanted, and the bodies
      handed to background writes so far. */
  datatype Tee = Tee(buf: Bytes, wanted: bool, spawned: seq<Bytes>)

  const FRESH := Tee([], true, [])

  /** Takes the write, if there still is one, and starts it. */
  function Complete(s: Tee): Tee {
    if s.wanted then Tee([], false, s.spawned + [s.buf]) else s
  }

  function Drop(s: Tee): Tee {
    Tee([], false, s.spawned)
  }

  function Buffer(max: nat, s: Tee, data: Bytes): Tee {
    if !s.wanted then s
    else if |s.buf| + |data| > max then Drop(s)
    else s.(buf := s.buf + data)
  }

  function Step(max: nat, s: Tee, ev: Event): Tee {
    match ev
    case Data(data, last) => if last then Complete(Buffer(max, s, data)) else Buffer(max, s, data)
    case Trailers(last) => if last then Complete(s) else s
    case Error => Drop(s)
    case End => Complete(s)
    case Pending => s
  }

  function Run(max: nat, evs: seq<Event>): Tee {
    if evs == [] then FRESH else Step(max, Run(max, evs[..|evs| - 1]), evs[|evs| - 1])
  }

  /** The wrapped body. `emitted` is what the client has been handed. */
  class RecordingBody {
    const max: nat
    var buf: Bytes
    var wanted: bool
    var spawned: seq<Bytes>
    ghost var emitted: seq<Event>

    ghost predicate Valid()
      reads this
    {
      State() == Run(max, emitted)
    }

    ghost function State(): Tee
      reads this
    {
      Tee(buf, wanted, spawned)
    }

    constructor (max: nat)
      ensures Valid() && this.max == max && emitted == []
    {
      this.max := max;
      buf, wanted, spawned, emitted := [], true, [], [];
    }

    /** Polls once: the inner result reaches the client unchanged. */
    method PollFrame(inner: Event) returns (frame: Event)
      requires Valid()
      modifies this
      ensures Valid() && frame == inner && emitted == old(emitted) + [inner]
    {
      emitted := emitted + [inner];
      assert emitted[..|emitted| - 1] == old(emitted);
      frame := inner;
      match inner
      case Data(data, last) =>
        if wanted {
          if |buf| + |data| > max {
            wanted, buf := false, [];
          } else {
            buf := buf + data;
          }
        }
        if last && wanted {
          spawned, wanted, buf := spawned + [buf], false, [];
        }
      case Trailers(last) =>
        if last && wanted {
          spawned, wanted, buf := spawned + [buf], false, [];
        }
      case Error =>
        wanted, buf := false, [];
      case End =>
        if wanted {
          spawned, wanted, buf := spawned + [buf], false, [];
        }
      case Pending =>
    }
  }

  // ----- what a run did, without the state machine

  predicate Terminal(ev: Event) {
    ev.Error? || ev.End? || ((ev.Data? || ev.Trailers?) && ev.last)
  }

  /** All data delivered. */
  function DataOf(evs: seq<Event>): Bytes {
    if evs == [] then []
    else
      var ev := evs[|evs| - 1];
      DataOf(evs[..|evs| - 1]) + (if ev.Data? then ev.data else [])
  }

  /** The events up to and including the first terminal one, if any. */
  function Ending(evs: seq<Event>): (k: Option<nat>)
    ensures k.Some? ==> k.value < |evs| && Terminal(evs[k.value]) && forall i :: 0 <= i < k.value ==> !Terminal(evs[i])
    ensures k.None? ==> forall i :: 0 <= i < |evs| ==> !Terminal(evs[i])
  {
    if evs == [] then None
    else
      var n := |evs| - 1;
      var k := Ending(evs[..n]);
      if k.Some? then k
      else if Terminal(evs[n]) then Some(n) else None
  }

  /** What must have been written: the data of a cleanly ended stream that
      fits the cap, and nothing otherwise. */
  function Expected(max: nat, evs: seq<Event>): seq<Bytes> {
    var k := Ending(evs);
    if k.None? || evs[k.value].Error? || |DataOf(evs[..k.value + 1])| > max then [] else [DataOf(evs[..k.value + 1])]
  }

  // ----- the state after any run

  ghost predicate Invariant(max: nat, evs: seq<Event>, s: Tee) {
    && |s.buf| <= max
    && s.spawned == Expected(max, evs)
    && (s.wanted <==> Ending(evs).None? && |DataOf(evs)| <= max)
    && (s.wanted ==> s.buf == DataOf(evs))
  }

  lemma {:induction false} DataGrows(evs: seq<Event>, k: nat)
    requires k <= |evs|
    ensures |DataOf(evs[..k])| <= |DataOf(evs)|
  {
    if k < |evs| {
      assert evs[..|evs| - 1][..k] == evs[..k];
      DataGrows(evs[..|evs| - 1], k);
    } else {
      assert evs[..k] == evs;
    }
  }

  /** Every run keeps the tee's contract: the buffer never exceeds the cap;
      at most one write starts, exactly when the stream ended cleanly within
      the cap; its body is exactly the data delivered up to that end. */
  lemma {:induction false} RunExact(max: nat, evs: seq<Event>)
    ensures Invariant(max, evs, Run(max, evs))
  {
    if evs != [] {
      var n := |evs| - 1;
      RunExact(max, evs[..n]);
      StepExact(max, evs, Run(max, evs[..n]));
    }
  }

  lemma {:induction false} ExpectedKept(max: nat, evs: seq<Event>)
    requires evs != [] && Ending(evs[..|evs| - 1]).Some?
    ensures Expected(max, evs) == Expected(max, evs[..|evs| - 1])
  {
    var init := evs[..|evs| - 1];
    var k := Ending(init).value;
    assert evs[..k + 1] == init[..k + 1] && evs[k] == init[k];
  }

  lemma {:induction false} StepExact(max: nat, evs: seq<Event>, s: Tee)
    requires evs != [] && Invariant(max, evs[..|evs| - 1], s)
    ensures Invariant(max, evs, Step(max, s, evs[|evs| - 1]))
  {
    var n := |evs| - 1;
    var ev := evs[n];
    assert evs[..n + 1] == evs;
    if Ending(evs[..n]).Some? {
      ExpectedKept(max, evs);
    } else if Terminal(ev) {
      assert Ending(evs) == Some(n);
      assert !ev.Data? ==> DataOf(evs) == DataOf(evs[..n]);
      assert s.spawned == [];
      assert Expected(max, evs) == if ev.Error? || |DataOf(evs)| > max then [] else [DataOf(evs)];
    } else {
      assert Expected(max, evs) == [];
    }
  }

  /** The buffer bound, at-most-one write and its body, as the client sees
      them; a stream that sends no data after its end is cached whole. */
  lemma {:induction false} TeeContract(max: nat, evs: seq<Event>)
    ensures var s := Run(max, evs);
            && |s.buf| <= max && |s.spawned| <= 1
            && (s.spawned != [] && NothingAfterEnd(evs) ==> s.spawned == [DataOf(evs)] && |DataOf(evs)| <= max)
            && (CleanEnd(evs) && |DataOf(evs)| <= max ==> |s.spawned| == 1)
  {
    RunExact(max, evs);
    var k := Ending(evs);
    if k.Some? {
      DataGrows(evs, k.value + 1);
      if NothingAfterEnd(evs) {
        NoMoreData(evs, k.value + 1);
      }
    }
  }

  /** The stream ended, and no poll reported an error. */
  ghost predicate CleanEnd(evs: seq<Event>) {
    (exists i :: 0 <= i < |evs| && Terminal(evs[i])) && forall i :: 0 <= i < |evs| ==> !evs[i].Error?
  }

  /** No data follows a terminal event. */
  ghost predicate NothingAfterEnd(evs: seq<Event>) {
    forall i, j :: 0 <= i < j < |evs| && Terminal(evs[i]) ==> !evs[j].Data?
  }

  lemma {:induction false} NoMoreData(evs: seq<Event>, k: nat)
    requires k <= |evs| && forall j :: k <= j < |evs| ==> !evs[j].Data?
    ensures DataOf(evs) == DataOf(evs[..k])
  {
    if k < |evs| {
      assert evs[..|evs| - 1][..k] == evs[..k];
      NoMoreData(evs[..|evs| - 1], k);
    } else {
      assert evs[..k] == evs;
    }
  }
}

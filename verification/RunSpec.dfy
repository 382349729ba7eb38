/** What every runtime promises of a run's output (packages/container-runtime/src/types.ts:51-70):
    an attachment delivers the output file's bytes from `fromByte` on, exactly, as they arrive. */
module RunSpec {
  import opened Lines

  type Byte = x: int | 0 <= x < 256
  const NEWLINE: Byte := 10

  datatype DetachReason = Closed | StreamEnded

  datatype RunExit = Exited(code: int) | Lost | Detached(reason: DetachReason)

  datatype Option<+T> = None | Some(value: T)

  /** The bytes an attachment from `from` owes its consumer once `output` is in the file. */
  function Tail<T>(output: seq<T>, from: nat): seq<T> {
    if from <= |output| then output[from..] else []
  }

  /** Where an attachment from `from` stands once it delivered everything. */
  function Position<T>(output: seq<T>, from: nat): nat {
    if from <= |output| then |output| else from
  }

  /** What a chunk that lands at the end of `output` adds for an attachment from `from`: the chunk less
      the bytes before `from`. */
  lemma TailGrows<T>(output: seq<T>, chunk: seq<T>, from: nat)
    ensures Tail(output + chunk, from) ==
            Tail(output, from) + (if Position(output, from) - |output| <= |chunk|
                                  then chunk[Position(output, from) - |output|..] else [])
  {
  }

  /** An attachment from `from` that stands at `to` has delivered exactly `output[from..to]`, and nothing
      while the file has not reached `from`. */
  ghost predicate Delivered<T>(output: seq<T>, from: nat, to: nat, bytes: seq<T>) {
    && from <= to
    && (to <= |output| || to == from)
    && bytes == (if to <= |output| then output[from..to] else [])
  }

  lemma DeliveredGrows<T>(output: seq<T>, more: seq<T>, from: nat, to: nat, bytes: seq<T>)
    requires Delivered(output, from, to, bytes)
    ensures Delivered(output + more, from, to, bytes)
  {
    if to <= |output| {
      assert (output + more)[from..to] == output[from..to];
    }
  }

  // ---- Handovers ----

  /** One attachment in a chain: where it started and stopped, and the bytes its consumer took. */
  datatype Leg<T> = Leg(from: nat, to: nat, bytes: seq<T>)

  /** Each attachment starts where the one before it stopped. */
  ghost predicate Chained<T>(legs: seq<Leg<T>>) {
    forall i :: 0 < i < |legs| ==> legs[i].from == legs[i - 1].to
  }

  function LegBytes<T>(legs: seq<Leg<T>>): seq<T> {
    if legs == [] then [] else legs[0].bytes + LegBytes(legs[1..])
  }

  /** Exactly once across handovers: a chain of exact attachments is one exact attachment, with no byte
      missing, repeated or out of order. */
  lemma {:induction false} ChainDelivers<T>(legs: seq<Leg<T>>, output: seq<T>)
    requires legs != [] && Chained(legs)
    requires forall i :: 0 <= i < |legs| ==> Delivered(output, legs[i].from, legs[i].to, legs[i].bytes)
    ensures Delivered(output, legs[0].from, legs[|legs| - 1].to, LegBytes(legs))
  {
    var first, rest := legs[0], legs[1..];
    if rest == [] {
      assert LegBytes(legs) == first.bytes + [] == first.bytes;
    } else {
      assert forall i :: 0 <= i < |rest| ==> rest[i] == legs[i + 1];
      hide Delivered;
      ChainDelivers(rest, output);
      TwoDeliver(output, first.from, first.to, legs[|legs| - 1].to, first.bytes, LegBytes(rest));
    }
  }

  lemma TwoDeliver<T>(output: seq<T>, from: nat, mid: nat, to: nat, a: seq<T>, b: seq<T>)
    requires Delivered(output, from, mid, a) && Delivered(output, mid, to, b)
    ensures Delivered(output, from, to, a + b)
  {
    if to <= |output| {
      assert output[from..mid] + output[mid..to] == output[from..to];
    }
  }
}

/** Ports: what a connection checks, and what it passes on (port_out.cpp). */
module Ports {
  datatype Option<T> = None | Some(value: T)

  /** type_t; Empty stands for a type that is not set. */
  datatype Kind = Empty | Logical | UInt8 | UInt16 | UInt32 | UInt64 | Int8 | Int16 | Int32 | Int64 | Real | Complex | Text

  /** A sample time or a frame size of zero is not set either. */
  datatype Attributes = Attributes(kind: Kind, ts: real, frameSize: nat)

  /** Success, a failed assertion that an attribute is set, or one of three exceptions. */
  datatype Outcome = Connected | AttributeNotSet | SampleTimesMismatch | SignalTypesMismatch | FrameSizesMismatch

  /** Every attribute is set, as is asserted of an out port when it is set up again and when it is connected. */
  predicate Proper(a: Attributes) {
    a.kind != Empty && a.ts > 0.0 && a.frameSize > 0
  }

  /** Whatever is set at the receiving port is what the sending port has. */
  predicate Matches(from: Attributes, into: Attributes) {
    && (into.ts > 0.0 ==> into.ts == from.ts)
    && (into.kind != Empty ==> into.kind == from.kind)
    && (into.frameSize > 0 ==> into.frameSize == from.frameSize)
  }

  /** What becomes of a connection: unset attributes come first, then sample times, then types, then frame sizes. */
  predicate Reported(from: Attributes, into: Attributes, r: Outcome) {
    match r
    case Connected => Proper(from) && Matches(from, into)
    case AttributeNotSet => !Proper(from)
    case SampleTimesMismatch => Proper(from) && into.ts > 0.0 && into.ts != from.ts
    case SignalTypesMismatch =>
      Proper(from) && into.kind != Empty && into.kind != from.kind && Matches(from, into.(kind := Empty, frameSize := 0))
    case FrameSizesMismatch =>
      Proper(from) && into.frameSize > 0 && into.frameSize != from.frameSize && Matches(from, into.(frameSize := 0))
  }

  /** The attributes that are set at `into`, and for the others those of `from`. */
  function FilledIn(from: Attributes, into: Attributes): Attributes {
    Attributes(if into.kind == Empty then from.kind else into.kind, if into.ts > 0.0 then into.ts else from.ts,
               if into.frameSize > 0 then into.frameSize else from.frameSize)
  }

  /** Of every connection exactly one thing becomes. It succeeds if all is set at the sending port, and what is not set at the
      receiving port can be filled in to the same. */
  lemma OneOutcome(from: Attributes, into: Attributes) returns (r: Outcome)
    ensures forall q :: Reported(from, into, q) <==> q == r
    ensures r == Connected <==> from.kind != Empty && from.ts > 0.0 && from.frameSize > 0 && FilledIn(from, into) == from
    ensures r == AttributeNotSet <==> !(from.kind != Empty && from.ts > 0.0 && from.frameSize > 0)
  {
    r := if !Proper(from) then AttributeNotSet
         else if into.ts > 0.0 && into.ts != from.ts then SampleTimesMismatch
         else if into.kind != Empty && into.kind != from.kind then SignalTypesMismatch
         else if into.frameSize > 0 && into.frameSize != from.frameSize then FrameSizesMismatch
         else Connected;
  }

  class InPort {
    var attr: Attributes
    var signal: Option<nat>

    constructor (a: Attributes)
      ensures attr == a && signal == None
    {
      attr, signal := a, None;
    }
  }

  class OutPort {
    var attr: Attributes
    var signal: Option<nat>
    var bufferId: nat
    var receiver: InPort?

    constructor (a: Attributes)
      ensures attr == a && signal == None && bufferId == 0 && receiver == null
    {
      attr, signal, bufferId, receiver := a, None, 0, null;
    }

    /** Either the attributes are handed on, or nothing changes at all. */
    method Connect(other: InPort, id: nat) returns (r: Outcome)
      modifies this`bufferId, this`receiver, other`attr
      ensures Reported(attr, old(other.attr), r)
      ensures r == Connected ==> other.attr == attr && bufferId == id && receiver == other
      ensures r != Connected ==> other.attr == old(other.attr) && bufferId == old(bufferId) && receiver == old(receiver)
    {
      if !(attr.ts > 0.0 && attr.kind != Empty && attr.frameSize > 0) {
        return AttributeNotSet;
      }
      if other.attr.ts > 0.0 && attr.ts != other.attr.ts {
        return SampleTimesMismatch;
      }
      if other.attr.kind != Empty && attr.kind != other.attr.kind {
        return SignalTypesMismatch;
      }
      if other.attr.frameSize > 0 && attr.frameSize != other.attr.frameSize {
        return FrameSizesMismatch;
      }
      other.attr := Attributes(attr.kind, attr.ts, attr.frameSize);
      bufferId := id;
      receiver := other;
      return Connected;
    }
  }
}

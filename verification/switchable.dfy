/**
  The consumer-facing stream of one chat request, reduced to what the chat
  route observes of it: how many times a source was switched in, which
  sources were attached in which order, and how many times `close()` was
  called.

  The implementation of the switchable stream is not part of this model.
  Its `switchSource` is ASSUMED to append the new source and to raise the
  switch counter by exactly one; `close` is assumed to change nothing but
  the close count.
 */
module Switchable {

  /** One provider output stream, named by the index (from 0) of the
      provider call that produced it. */
  datatype Source = Source(call: nat)

  datatype Stream = Stream(switches: nat, closes: nat, attached: seq<Source>)
  {
    /** The consumer has seen end-of-stream. */
    predicate Closed() {
      closes > 0
    }

    /** The switch counter agrees with the list of attached sources. */
    predicate Counted() {
      switches == |attached|
    }
  }

  /** The stream as the route creates it, before the first provider call. */
  const Fresh: Stream := Stream(0, 0, [])

  /** `switchSource(src)`, under the assumption stated above. */
  function SwitchSource(s: Stream, src: Source): (r: Stream)
    ensures r.switches == s.switches + 1 && r.attached == s.attached + [src]
    ensures r.closes == s.closes
  {
    s.(switches := s.switches + 1, attached := s.attached + [src])
  }

  /** `close()`: signals end-of-stream; the sources and the counter stay. */
  function Close(s: Stream): (r: Stream)
    ensures r.Closed() && r.closes == s.closes + 1
    ensures r.switches == s.switches && r.attached == s.attached
  {
    s.(closes := s.closes + 1)
  }
}

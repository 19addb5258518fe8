/** One caller's calls, with the events of everybody else in between. */
module Interleaving {
  datatype Mark<E> = Own(event: E) | Other(event: E)

  /** One call with the events that happen from its start to the start of the next call. */
  datatype Part<C, E> = Part(call: C, marks: seq<Mark<E>>)

  function Events<E>(marks: seq<Mark<E>>): (events: seq<E>)
    ensures |events| == |marks|
  {
    if marks == [] then [] else [marks[0].event] + Events(marks[1..])
  }

  function Owned<E>(marks: seq<Mark<E>>): seq<E> {
    if marks == [] then [] else (if marks[0].Own? then [marks[0].event] else []) + Owned(marks[1..])
  }

  function Calls<C, E>(parts: seq<Part<C, E>>): seq<C> {
    seq(|parts|, i requires 0 <= i < |parts| => parts[i].call)
  }

  function Flat<C, E>(parts: seq<Part<C, E>>): seq<E> {
    if parts == [] then [] else Flat(parts[..|parts| - 1]) + Events(parts[|parts| - 1].marks)
  }

  predicate FirstIsOwn<E(==)>(marks: seq<Mark<E>>, e: E) {
    marks != [] && marks[0] == Own(e) && Owned(marks) == [e]
  }

  lemma FirstOfEvents<E>(marks: seq<Mark<E>>)
    requires marks != []
    ensures Events(marks) == [marks[0].event] + Events(marks[1..])
  {
  }
}

/**
 * Audit actors as packages/audit/src/actor.ts classifies them: a person, an AI
 * tool holding that person's token, a system account, or a string the trail
 * cannot attribute and therefore throws on.
 */
module Actors {
  import opened Wrappers

  datatype Actor =
    | Human(user: string)
    | Delegate(user: string)
    | System(name: string)
    | Unclassified(text: string)

  /** The person behind an actor, seeing through delegation; nobody stands behind a system account. */
  function HumanBehind(a: Actor): Option<string>
    requires !a.Unclassified?
  {
    match a
    case Human(u) => Some(u)
    case Delegate(u) => Some(u)
    case System(_) => None
  }

  predicate SamePerson(a: Actor, b: Actor)
    requires !a.Unclassified? && !b.Unclassified?
  {
    HumanBehind(a).Some? && HumanBehind(a) == HumanBehind(b)
  }

  /** `a` is `b` or acts with `b`'s pair of eyes. */
  predicate SpeaksFor(a: Actor, b: Actor) {
    a == b || (!a.Unclassified? && !b.Unclassified? && SamePerson(a, b))
  }
}

/** A collaborator the model cannot see (an HTTP endpoint, a lookup function in a module
    that is not part of this model), reduced to what it answers and to a log of what it
    was asked. */
module Oracles {

  class Oracle<Q, A> {
    /** The answer the collaborator gives to each request. */
    const answer: Q -> A
    /** Every request sent so far, oldest first. */
    var asked: seq<Q>

    constructor (answer: Q -> A)
      ensures this.answer == answer && asked == []
    {
      this.answer := answer;
      asked := [];
    }

    /** Sends one request and returns the collaborator's answer to it. */
    method Ask(q: Q) returns (a: A)
      modifies this
      ensures asked == old(asked) + [q]
      ensures a == answer(q)
    {
      asked := asked + [q];
      a := answer(q);
    }
  }
}

/** The slug source `operationId`s are drawn from. Its algorithm is not part of this
    model: a slug is an arbitrary function of the texts requested so far and the new
    text, which is all a stateful slugger can depend on. */
module Slugs {

  class Slugger {
    /** The slugging algorithm: history of requested texts, new text, slug. */
    const slugOf: (seq<string>, string) -> string
    /** Every text slugged so far, oldest first. */
    var requests: seq<string>

    constructor (slugOf: (seq<string>, string) -> string)
      ensures this.slugOf == slugOf && requests == []
    {
      this.slugOf := slugOf;
      requests := [];
    }

    /** `slugger.slug(text)`: the slug for `text`, given everything slugged before. */
    method Slug(text: string) returns (slug: string)
      modifies this
      ensures slug == slugOf(old(requests), text)
      ensures requests == old(requests) + [text]
    {
      slug := slugOf(requests, text);
      requests := requests + [text];
    }
  }
}

/**
 * emil.Session: a user session's id and resources, fixed at construction, and its
 * expiration timestamp (milliseconds), which can be replaced.
 */
module Sessions {
  import opened JavaLang

  class Session<Resource> {
    const id: string
    const resources: seq<Resource>
    var expirationTimestamp: int

    /** The two-argument constructor: a session that never expires (Long.MAX_VALUE). */
    constructor (id: string, resources: seq<Resource>)
      ensures this.id == id && this.resources == resources
      ensures expirationTimestamp == LONG_MAX
    {
      this.id := id;
      this.resources := resources;
      expirationTimestamp := LONG_MAX;
    }

    /** The three-argument constructor: every value stored as given. */
    constructor WithExpiration(id: string, resources: seq<Resource>, expirationTimestamp: int)
      ensures this.id == id && this.resources == resources
      ensures this.expirationTimestamp == expirationTimestamp
    {
      this.id := id;
      this.resources := resources;
      this.expirationTimestamp := expirationTimestamp;
    }

    function GetExpirationTimestamp(): int
      reads this
    {
      expirationTimestamp
    }

    /** Replaces the expiration only; the getter returns the value set last. */
    method SetExpirationTimestamp(timestamp: int)
      modifies this`expirationTimestamp
      ensures GetExpirationTimestamp() == timestamp
    {
      expirationTimestamp := timestamp;
    }
  }
}

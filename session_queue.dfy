/** The revocation event and the one shared slot it travels through: a
    behaviour subject that holds the latest value (initially null) and
    replays it to a new subscriber. */
module SessionQueue {
  import opened Wrappers
  import Strings

  /** The three endpoints an event can name. */
  datatype Endpoint = RevokeSession | RevokeSessions | RevokeOtherSessions

  /** The endpoint's name as it is written in the event. */
  function EndpointName(e: Endpoint): (name: string)
    ensures Strings.StartsWith(name, "revoke-")
  {
    match e
    case RevokeSession => "revoke-session"
    case RevokeSessions => "revoke-sessions"
    case RevokeOtherSessions => "revoke-other-sessions"
  }

  /** The three names are distinct, and the name of the all-sessions
      endpoint contains the name of the single-session endpoint. */
  lemma EndpointNames()
    ensures forall a, b :: EndpointName(a) == EndpointName(b) ==> a == b
    ensures Strings.Includes(EndpointName(RevokeSessions), EndpointName(RevokeSession))
  {
    assert Strings.StartsWith(EndpointName(RevokeSessions), EndpointName(RevokeSession));
    Strings.IncludesPrefix(EndpointName(RevokeSessions), EndpointName(RevokeSession));
    assert EndpointName(RevokeSession)[7] == 's';
    assert EndpointName(RevokeOtherSessions)[7] == 'o';
    assert |EndpointName(RevokeSession)| != |EndpointName(RevokeSessions)|;
  }

  /** A JavaScript value as far as the executor looks at it: absent, a
      string, or something else. */
  datatype Value = Undefined | Str(s: string) | NonString

  /** A request body: opaque except for the two fields the hooks and the
      executor read (`token`, and `email` which the code casts to a string). */
  datatype Body = Body(token: Value, email: Option<string>)

  /** One revocation event. `sessionToken` is optional and `body` is passed
      through as it arrived. */
  datatype Event = Event(endpoint: Endpoint, body: Body, sessionToken: Option<string>)

  /** The shared slot: a behaviour subject over `Event | null`. */
  class Queue {
    /** The value it holds; `None` is the initial `null`. */
    var value: Option<Event>
    /** Set by `complete()`; a completed subject notifies nobody. */
    var stopped: bool

    /** `new BehaviorSubject(null)`. */
    constructor ()
      ensures value == None && !stopped
    {
      value := None;
      stopped := false;
    }

    /** `next(v)`: the held value is overwritten, even once completed. */
    method Next(v: Option<Event>)
      modifies this
      ensures value == v && stopped == old(stopped)
    {
      value := v;
    }

    /** `complete()`: terminal, idempotent, keeps the held value. */
    method Complete()
      modifies this
      ensures stopped && value == old(value)
    {
      stopped := true;
    }
  }
}

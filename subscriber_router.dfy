/** The newsletter handler: validate an e-mail address and store it once. */
module SubscriberRouter {
  import opened Wrappers
  import opened Store
  import Js

  /** Whether `s` contains a match of `\S+@\S+\.\S+` at all (the test is
      not anchored): a non-space character, an `@`, at least one non-space
      character, a `.`, and a non-space character, with `at` the position of
      the `@` and `dot` that of the `.`. */
  predicate MatchAt(s: string, at: int, dot: int) {
    1 <= at && at + 2 <= dot && dot + 1 < |s| &&
    s[at] == '@' && s[dot] == '.' &&
    !Js.IsSpace(s[at - 1]) && !Js.IsSpace(s[dot + 1]) &&
    forall k :: at < k < dot ==> !Js.IsSpace(s[k])
  }

  predicate EmailPattern(s: string) {
    exists at, dot | 0 <= at < |s| && 0 <= dot < |s| :: MatchAt(s, at, dot)
  }

  /** POST /api/subscribe at time `now`; "" stands for a missing address.
      The address is stored, and looked up, trimmed and lower-cased. */
  function Subscribe(s: Backend, email: string, now: Time): Outcome<()> {
    if email == "" || !EmailPattern(email) then Outcome(s, Fail(400, "Invalid email address"))
    else if Js.Normalize(email) in s.subscribers then Outcome(s, Fail(400, "Email already subscribed"))
    else Outcome(s.(subscribers := s.subscribers[Js.Normalize(email) := now]), Ok(201, ()))
  }

  method HandleSubscribe(db: Database, email: string, now: Time) returns (reply: Reply<()>)
    modifies db
    ensures var o := Subscribe(old(db.State()), email, now);
            db.State() == o.state && reply == o.reply
  {
    if email == "" || !EmailPattern(email) {
      return Fail(400, "Invalid email address");
    }
    var key := Js.Normalize(email);
    if key in db.subscribers {
      return Fail(400, "Email already subscribed");
    }
    db.subscribers := db.subscribers[key := now];
    reply := Ok(201, ());
  }

  // ---------------------------------------------------------------------
  // Properties

  /** An address without `@` is refused. */
  lemma NoAtIsRejected(s: string)
    requires '@' !in s
    ensures !EmailPattern(s)
  {
    assert forall at :: 0 <= at < |s| ==> s[at] != '@' by {
      forall at | 0 <= at < |s| ensures s[at] != '@' {
        assert s[at] in s;
      }
    }
  }

  /** The smallest accepted address. */
  lemma ShortestAccepted()
    ensures EmailPattern("a@b.c")
  {
    assert MatchAt("a@b.c", 1, 3);
  }

  /** Because the test is not anchored, anything may surround a valid
      address, white space included. */
  lemma {:induction false} PatternUnanchored(pre: string, t: string, post: string)
    requires EmailPattern(t)
    ensures EmailPattern(pre + t + post)
  {
    var at, dot :| 0 <= at < |t| && 0 <= dot < |t| && MatchAt(t, at, dot);
    var s := pre + t + post;
    var n := |pre|;
    assert forall k :: 0 <= k < |t| ==> s[n + k] == t[k];
    assert forall k :: n + at < k < n + dot ==> s[k] == t[k - n];
    assert MatchAt(s, n + at, n + dot);
  }

  /** Subscribing succeeds exactly for a valid address not yet stored in
      normalised form. It then adds exactly that one key, dated `now` (the
      schema's default for `subscribedAt`), keeps every earlier subscriber
      and its date, and touches no other collection. */
  lemma SubscribeEffect(s: Backend, email: string, now: Time)
    ensures var o := Subscribe(s, email, now);
            (o.reply.Ok? <==> email != "" && EmailPattern(email) && Js.Normalize(email) !in s.subscribers) &&
            (o.reply.Fail? ==> o.reply.code == 400 && o.state == s)
    ensures var o := Subscribe(s, email, now);
            o.reply.Ok? ==>
              var key := Js.Normalize(email);
              o.reply.code == 201 &&
              o.state.subscribers.Keys == s.subscribers.Keys + {key} &&
              o.state.subscribers[key] == now &&
              (forall k :: k in s.subscribers ==> o.state.subscribers[k] == s.subscribers[k]) &&
              o.state == s.(subscribers := o.state.subscribers)
  {
  }

  /** Two addresses that differ only in case or surrounding white space are
      one subscription: the second is refused. */
  lemma SubscribeSameAddressTwice(s: Backend, e1: string, e2: string, t1: Time, t2: Time)
    requires Js.Normalize(e1) == Js.Normalize(e2)
    requires e2 != "" && EmailPattern(e2)
    ensures var o1 := Subscribe(s, e1, t1);
            o1.reply.Ok? ==> Subscribe(o1.state, e2, t2).reply == Fail(400, "Email already subscribed")
  {
  }

  /** The stored form of an address is its own stored form, so looking up a
      stored address finds it. */
  lemma StoredAddressIsFound(s: Backend, email: string, now: Time)
    ensures var o := Subscribe(s, email, now);
            o.reply.Ok? ==> Js.Normalize(Js.Normalize(email)) in o.state.subscribers
  {
    Js.NormalizeIdempotent(email);
  }
}

/**
 * The calls `Router.route` makes, as a record: which destinations were called, from
 * which origin, with which message, in which order.
 */
module Deliveries {
  import opened Values

  /** One call `dispatch` makes: `functions[destination](_origin=origin, **message)`. */
  datatype Delivery = Delivery(origin: string, destination: string, message: Bundle)

  /**
   * `s` delivers `message` from `origin` to the destinations `subs`, in some order: its
   * last delivery goes to one of them and the rest deliver to the others.
   */
  ghost predicate DeliversOnce(s: seq<Delivery>, origin: string, subs: set<string>, message: Bundle)
    decreases |s|
  {
    if s == [] then subs == {}
    else
      var last := s[|s| - 1];
      && last.origin == origin && last.message == message && last.destination in subs
      && DeliversOnce(s[..|s| - 1], origin, subs - {last.destination}, message)
  }

  /** Every delivery of `s` goes from `origin` with `message` to one of `subs`. */
  ghost predicate AllWithin(s: seq<Delivery>, origin: string, subs: set<string>, message: Bundle)
  {
    forall i :: 0 <= i < |s| ==> s[i].origin == origin && s[i].message == message && s[i].destination in subs
  }

  /** No destination is called twice in `s`. */
  ghost predicate NoRepeat(s: seq<Delivery>)
  {
    forall i, j :: 0 <= i < j < |s| ==> s[i].destination != s[j].destination
  }

  /** Every destination in `subs` is called somewhere in `s`. */
  ghost predicate Covers(s: seq<Delivery>, subs: set<string>)
  {
    forall d :: d in subs ==> exists i :: 0 <= i < |s| && s[i].destination == d
  }

  /** `s` delivers `message` from `origin` exactly once to each destination in `subs`, and nothing else. */
  ghost predicate OncePerDestination(s: seq<Delivery>, origin: string, subs: set<string>, message: Bundle)
  {
    |s| == |subs| && AllWithin(s, origin, subs, message) && NoRepeat(s) && Covers(s, subs)
  }

  /** Splitting off the last delivery of a non-empty run. */
  lemma LastSplit(s: seq<Delivery>)
    requires s != []
    ensures s == s[..|s| - 1] + [s[|s| - 1]]
    ensures forall i :: 0 <= i < |s| - 1 ==> s[..|s| - 1][i] == s[i]
  {
  }

  lemma {:induction false} DeliversOnceLength(s: seq<Delivery>, origin: string, subs: set<string>, message: Bundle)
    requires DeliversOnce(s, origin, subs, message)
    ensures |s| == |subs|
    decreases |s|
  {
    if s != [] {
      var last := s[|s| - 1];
      DeliversOnceLength(s[..|s| - 1], origin, subs - {last.destination}, message);
      assert subs == (subs - {last.destination}) + {last.destination};
    }
  }

  lemma {:induction false} DeliversOnceWithin(s: seq<Delivery>, origin: string, subs: set<string>, message: Bundle)
    requires DeliversOnce(s, origin, subs, message)
    ensures AllWithin(s, origin, subs, message)
    decreases |s|
  {
    if s != [] {
      var last := s[|s| - 1];
      DeliversOnceWithin(s[..|s| - 1], origin, subs - {last.destination}, message);
      LastSplit(s);
    }
  }

  lemma {:induction false} DeliversOnceNoRepeat(s: seq<Delivery>, origin: string, subs: set<string>, message: Bundle)
    requires DeliversOnce(s, origin, subs, message)
    ensures NoRepeat(s)
    decreases |s|
  {
    if s != [] {
      var n := |s| - 1;
      var init := s[..n];
      var rest := subs - {s[n].destination};
      DeliversOnceNoRepeat(init, origin, rest, message);
      DeliversOnceWithin(init, origin, rest, message);
      LastSplit(s);
      forall i, j | 0 <= i < j < |s| ensures s[i].destination != s[j].destination {
        assert init[i].destination in rest;
        if j < n {
          assert init[j].destination != init[i].destination;
        }
      }
    }
  }

  lemma {:induction false} DeliversOnceCovers(s: seq<Delivery>, origin: string, subs: set<string>, message: Bundle)
    requires DeliversOnce(s, origin, subs, message)
    ensures Covers(s, subs)
    decreases |s|
  {
    if s != [] {
      var n := |s| - 1;
      var init := s[..n];
      DeliversOnceCovers(init, origin, subs - {s[n].destination}, message);
      LastSplit(s);
      forall d | d in subs ensures exists i :: 0 <= i < |s| && s[i].destination == d {
        if d == s[n].destination {
          assert s[n].destination == d;
        } else {
          assert d in subs - {s[n].destination};
          var i :| 0 <= i < n && init[i].destination == d;
          assert s[i].destination == d;
        }
      }
    }
  }

  /** A `DeliversOnce` run calls each destination exactly once. */
  lemma DeliversOnceIsOncePerDestination(s: seq<Delivery>, origin: string, subs: set<string>, message: Bundle)
    requires DeliversOnce(s, origin, subs, message)
    ensures OncePerDestination(s, origin, subs, message)
  {
    DeliversOnceLength(s, origin, subs, message);
    DeliversOnceWithin(s, origin, subs, message);
    DeliversOnceNoRepeat(s, origin, subs, message);
    DeliversOnceCovers(s, origin, subs, message);
  }

  /** Conversely, calling each destination exactly once is a `DeliversOnce` run. */
  lemma {:induction false} OncePerDestinationDeliversOnce(
    s: seq<Delivery>, origin: string, subs: set<string>, message: Bundle)
    requires OncePerDestination(s, origin, subs, message)
    ensures DeliversOnce(s, origin, subs, message)
    decreases |s|
  {
    if s == [] {
      assert forall d :: d !in subs;
    } else {
      var n := |s| - 1;
      var init := s[..n];
      var rest := subs - {s[n].destination};
      LastSplit(s);
      assert s[n].destination in subs;
      assert AllWithin(init, origin, rest, message) by {
        forall i | 0 <= i < n ensures init[i].destination in rest {
          assert s[i].destination != s[n].destination;
        }
      }
      assert Covers(init, rest) by {
        forall d | d in rest ensures exists i :: 0 <= i < n && init[i].destination == d {
          var i :| 0 <= i < |s| && s[i].destination == d;
          assert i != n && init[i].destination == d;
        }
      }
      assert NoRepeat(init);
      assert |init| == |rest|;
      OncePerDestinationDeliversOnce(init, origin, rest, message);
    }
  }

  /** Delivering to one more destination extends a `DeliversOnce` run. */
  lemma DeliversOnceOneMore(s: seq<Delivery>, origin: string, done: set<string>, message: Bundle, d: string)
    requires DeliversOnce(s, origin, done, message) && d !in done
    ensures DeliversOnce(s + [Delivery(origin, d, message)], origin, done + {d}, message)
  {
    var s' := s + [Delivery(origin, d, message)];
    assert s'[..|s'| - 1] == s;
    assert (done + {d}) - {d} == done;
  }

  /** Appending to a trace one step at a time builds the same sequence as appending the steps at once. */
  lemma AppendAssociative(a: seq<Delivery>, b: seq<Delivery>, c: seq<Delivery>)
    ensures (a + b) + c == a + (b + c)
  {
  }

  /** The deliveries after a prefix of the trace are what was appended to it. */
  lemma SuffixAfter(a: seq<Delivery>, b: seq<Delivery>)
    ensures (a + b)[|a|..] == b
  {
  }

  /** A sequence is its prefix followed by the rest. */
  lemma PrefixSplit(a: seq<Delivery>, t: seq<Delivery>)
    requires a <= t
    ensures t == a + t[|a|..]
  {
  }

  /** `s` is one `DeliversOnce` block per message, the blocks in the order of `messages`. */
  ghost predicate DeliversEach(s: seq<Delivery>, origin: string, subs: set<string>, messages: seq<Bundle>)
    decreases |messages|
  {
    if messages == [] then s == []
    else
      && |s| >= |subs|
      && DeliversOnce(s[..|subs|], origin, subs, messages[0])
      && DeliversEach(s[|subs|..], origin, subs, messages[1..])
  }

  /** Routing one more message appends one more block. */
  lemma {:induction false} DeliversEachAppend(
    s: seq<Delivery>, b: seq<Delivery>, origin: string, subs: set<string>, messages: seq<Bundle>, m: Bundle)
    requires DeliversEach(s, origin, subs, messages) && DeliversOnce(b, origin, subs, m)
    ensures DeliversEach(s + b, origin, subs, messages + [m])
    decreases |messages|
  {
    var n := |subs|;
    DeliversOnceLength(b, origin, subs, m);
    if messages == [] {
      assert s + b == b && b[..n] == b && b[n..] == [];
      assert (messages + [m])[1..] == [];
    } else {
      assert (s + b)[..n] == s[..n];
      assert (s + b)[n..] == s[n..] + b;
      assert (messages + [m])[1..] == messages[1..] + [m];
      DeliversEachAppend(s[n..], b, origin, subs, messages[1..], m);
    }
  }

  /** The step of a loop routing `messages` in turn: message `i` adds its block. */
  lemma DeliversEachStep(
    s: seq<Delivery>, b: seq<Delivery>, origin: string, subs: set<string>, messages: seq<Bundle>, i: int)
    requires 0 <= i < |messages|
    requires DeliversEach(s, origin, subs, messages[..i]) && DeliversOnce(b, origin, subs, messages[i])
    ensures DeliversEach(s + b, origin, subs, messages[..i + 1])
  {
    DeliversEachAppend(s, b, origin, subs, messages[..i], messages[i]);
    assert messages[..i] + [messages[i]] == messages[..i + 1];
  }

  /**
   * `s` is what a route stopped by a failing dispatch leaves: one delivery of `message`
   * from `origin` to each of a proper subset of `subs`, and nothing else.
   */
  ghost predicate DeliversPart(s: seq<Delivery>, origin: string, subs: set<string>, message: Bundle)
  {
    exists done :: done < subs && DeliversOnce(s, origin, done, message)
  }

  /** A stopped route calls fewer destinations than `subs` holds, only those, and none twice. */
  lemma DeliversPartWithin(s: seq<Delivery>, origin: string, subs: set<string>, message: Bundle)
    requires DeliversPart(s, origin, subs, message)
    ensures |s| < |subs| && AllWithin(s, origin, subs, message) && NoRepeat(s)
  {
    var done :| done < subs && DeliversOnce(s, origin, done, message);
    DeliversOnceIsOncePerDestination(s, origin, done, message);
    var missing :| missing in subs && missing !in done;
    SubsetNoLarger(done, subs - {missing});
  }

  /** A subset has no more elements than its superset. */
  lemma {:induction false} SubsetNoLarger(a: set<string>, b: set<string>)
    requires a <= b
    ensures |a| <= |b|
    decreases |a|
  {
    if a != {} {
      var x :| x in a;
      SubsetNoLarger(a - {x}, b - {x});
    }
  }

  /**
   * `s` is what routing `messages` in turn leaves when one route fails: a complete block
   * for each message before message `k`, then a stopped route of message `k`.
   */
  ghost predicate DeliversEachThenPart(s: seq<Delivery>, origin: string, subs: set<string>, messages: seq<Bundle>)
  {
    exists k, j :: 0 <= k < |messages| && 0 <= j <= |s|
      && DeliversEach(s[..j], origin, subs, messages[..k])
      && DeliversPart(s[j..], origin, subs, messages[k])
  }

  /** With no subscribers, a run of routes delivers nothing. */
  lemma {:induction false} DeliversEachNone(s: seq<Delivery>, origin: string, messages: seq<Bundle>)
    requires DeliversEach(s, origin, {}, messages)
    ensures s == []
    decreases |messages|
  {
    if messages != [] {
      assert s[0..] == s;
      DeliversEachNone(s, origin, messages[1..]);
    }
  }
}

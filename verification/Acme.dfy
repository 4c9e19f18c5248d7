/** `AcmeClient`: nonces, account and resources over a sequence of replies that may be anything. */
module Acme {
  import opened Js

  /** What a call returns or that it throws. */
  datatype Result<+T> = Ok(value: T) | Err {
    predicate IsFailure() {
      Err?
    }

    function PropagateFailure<U>(): Result<U>
      requires Err?
    {
      Err
    }

    function Extract(): T
      requires Ok?
    {
      value
    }
  }

  /** What a fetch comes to: it may reject; a body may not be JSON, and then has only its text. */
  datatype Reply =
    | Failed
    | Reply(ok: bool, nonce: Option<nat>, location: Option<string>, body: Option<Json>, text: string)

  datatype Payload = NewAccount | NewOrder(names: seq<string>) | Read | Accept | Finalize(csr: string)

  /** A signed request as it goes out: by `kid` once there is one, by the public key before. */
  datatype Post = Post(url: Json, nonce: Option<nat>, signer: Option<string>, payload: Payload)

  /** Section 6.5 of RFC 8555: the server never repeats a nonce. */
  ghost predicate Fresh(replies: nat -> Reply) {
    forall i: nat, j: nat ::
      (replies(i).Reply? && replies(j).Reply? && replies(i).nonce.Some? && replies(i).nonce == replies(j).nonce) ==> i == j
  }

  /** The nonce came with one of the first `count` replies. */
  ghost predicate Issued(replies: nat -> Reply, count: nat, nonce: nat) {
    exists k: nat :: k < count && replies(k).Reply? && replies(k).nonce == Some(nonce)
  }

  ghost predicate Spent(posts: seq<Post>, nonce: nat) {
    exists i :: 0 <= i < |posts| && posts[i].nonce == Some(nonce)
  }

  /** No nonce goes out twice. */
  ghost predicate NoReplay(posts: seq<Post>) {
    forall i, j :: 0 <= i < j < |posts| && posts[i].nonce.Some? ==> posts[i].nonce != posts[j].nonce
  }

  /** One request more has gone out, with some nonce. */
  ghost predicate IsSent(before: seq<Post>, post: Post, after: seq<Post>) {
    |after| == |before| + 1 && after == before + [post.(nonce := after[|before|].nonce)]
  }

  /** At most so many reads of the resource have gone out since, under one signer. */
  ghost predicate Reads(before: seq<Post>, after: seq<Post>, url: Json, signer: Option<string>, most: nat) {
    before <= after && |after| <= |before| + most &&
    forall i :: |before| <= i < |after| ==> after[i].url == url && after[i].signer == signer && after[i].payload.Read?
  }

  /** The account is registered first; every request after that is signed by its key id. */
  ghost predicate Signed(posts: seq<Post>, kid: Option<string>) {
    (posts != [] ==> posts[0].payload.NewAccount?) &&
    forall i :: 0 < i < |posts| ==> posts[i].signer == kid && !posts[i].payload.NewAccount?
  }

  /** Reading a member: `null` and `undefined` have none to read. */
  function Field(v: Json, name: string): Result<Json> {
    if Nullish(v) then Err else Ok(Get(v, name))
  }

  const ATTEMPTS := 20

  predicate IsFinal(resource: Json) {
    Get(resource, "status") == Str("valid") || Get(resource, "status") == Str("invalid")
  }

  /** The server has decided, one way or the other. */
  ghost predicate Decided(resource: Json) {
    Get(resource, "status") in {Str("invalid"), Str("valid")}
  }

  /** No answer to go on: none came, or not a success, or nothing in it that has members. */
  predicate Unusable(reply: Reply) {
    reply.Failed? || !reply.ok || reply.body.None? || Nullish(reply.body.value)
  }

  /** At these places, in order and between the two given, are answers that are not final. */
  ghost predicate Waiting(replies: nat -> Reply, start: nat, end: nat, at: seq<nat>)
    decreases |at|
  {
    at == [] ||
    (var last := at[|at| - 1];
     start <= last < end && !Unusable(replies(last)) && !Decided(replies(last).body.value) &&
     Waiting(replies, start, last, at[..|at| - 1]))
  }

  lemma {:induction false} WaitOne(replies: nat -> Reply, start: nat, end: nat, at: seq<nat>, last: nat)
    requires Waiting(replies, start, end, at) && start <= end <= last
    requires !Unusable(replies(last)) && !Decided(replies(last).body.value)
    ensures Waiting(replies, start, last + 1, at + [last])
  {
    assert (at + [last])[..|at|] == at;
  }

  class AcmeClient {
    const replies: nat -> Reply
    var count: nat
    var directory: Json
    var nonce: Option<nat>
    var kid: Option<string>
    ghost var posts: seq<Post>

    ghost predicate Valid()
      reads this
    {
      Fresh(replies) && NoReplay(posts) &&
      (forall n: nat :: Spent(posts, n) ==> Issued(replies, count, n)) &&
      (nonce.Some? ==> Issued(replies, count, nonce.value) && !Spent(posts, nonce.value))
    }

    constructor (replies: nat -> Reply)
      requires Fresh(replies)
      ensures Valid() && this.replies == replies && posts == [] && count == 0
    {
      this.replies, count, directory, nonce, kid, posts := replies, 0, Undefined, None, None, [];
    }

    function Latest(): Reply
      reads this
    {
      if count == 0 then Failed else replies(count - 1)
    }

    method Fetch() returns (reply: Reply)
      requires Valid()
      modifies this`count
      ensures Valid() && count == old(count) + 1 && reply == replies(old(count)) == Latest()
      ensures reply.Reply? && reply.nonce.Some? ==>
        Issued(replies, count, reply.nonce.value) && !Issued(replies, old(count), reply.nonce.value)
    {
      reply := replies(count);
      count := count + 1;
      forall n: nat | Issued(replies, old(count), n) ensures Issued(replies, count, n) {
        var k: nat :| k < old(count) && replies(k).Reply? && replies(k).nonce == Some(n);
        assert k < count;
      }
      assert reply == replies(old(count));
    }

    method LoadDirectory() returns (r: Result<Json>)
      requires Valid()
      modifies this`count, this`directory
      ensures Valid() && count >= old(count)
      ensures r.Err? || Nullish(r.value) ==> Unusable(Latest())
    {
      if Truthy(directory) { return Ok(directory); }
      var reply := Fetch();
      if reply.Failed? || !reply.ok || reply.body.None? { return Err; }
      directory := reply.body.value;
      return Ok(directory);
    }

    /** A nonce no request has used: the one at hand, which is then let go, or one asked for. */
    method TakeNonce() returns (r: Result<Option<nat>>)
      requires Valid()
      modifies this`count, this`directory, this`nonce
      ensures Valid() && nonce == None && count >= old(count)
      ensures r.Ok? && r.value.Some? ==> Issued(replies, count, r.value.value) && !Spent(posts, r.value.value)
      ensures r.Err? ==> Unusable(Latest())
    {
      if nonce.Some? {
        var taken := nonce;
        nonce := None;
        return Ok(taken);
      }
      var found := LoadDirectory();
      if found.Err? || Field(found.value, "newNonce").Err? { return Err; }
      var reply := Fetch();
      return if reply.Failed? then Err else Ok(reply.nonce);
    }

    /** Sign and send; the nonce of the reply is kept for the next request. */
    method Send(url: Json, payload: Payload) returns (r: Result<Reply>)
      requires Valid()
      modifies this`count, this`directory, this`nonce, this`posts
      ensures Valid() && count >= old(count)
      ensures (posts == old(posts) && r.Err?) || IsSent(old(posts), Post(url, None, kid, payload), posts)
      ensures if r.Ok? then r.value == Latest() && r.value.Reply? && count > old(count) else Unusable(Latest())
    {
      var taken := TakeNonce();
      if taken.Err? { return Err; }
      posts := SendOne(url, payload, taken.value);
      assert posts[|posts| - 1].nonce == taken.value;
      var reply := Fetch();
      if reply.Failed? { return Err; }
      if reply.nonce.Some? { nonce := reply.nonce; }
      return Ok(reply);
    }

    ghost method SendOne(url: Json, payload: Payload, spent: Option<nat>) returns (more: seq<Post>)
      requires Valid()
      requires spent.Some? ==> Issued(replies, count, spent.value) && !Spent(posts, spent.value)
      requires nonce == None
      ensures more == posts + [Post(url, spent, kid, payload)] && NoReplay(more)
      ensures forall n: nat :: Spent(more, n) ==> Issued(replies, count, n)
    {
      more := posts + [Post(url, spent, kid, payload)];
      forall n: nat | Spent(more, n) ensures Issued(replies, count, n) {
        var i :| 0 <= i < |more| && more[i].nonce == Some(n);
        if i < |posts| { assert posts[i].nonce == Some(n); }
      }
    }

    /** The account's key id once registered; every later request is signed by it. */
    method Register() returns (r: Result<()>, ghost url: Json)
      requires Valid()
      modifies this
      ensures Valid()
      ensures r.Ok? ==> Latest().Reply? && Latest().ok && kid == Latest().location && posts != old(posts)
      ensures r.Err? ==> kid == old(kid) && Unusable(Latest())
      ensures posts == old(posts) || IsSent(old(posts), Post(url, None, old(kid), NewAccount), posts)
    {
      r, url := Err, Null;
      var dir := LoadDirectory();
      if dir.Err? { return; }
      var endpoint := Field(dir.value, "newAccount");
      if endpoint.Err? { return; }
      url := endpoint.value;
      var reply := Send(endpoint.value, NewAccount);
      if reply.Err? || !reply.value.ok { return; }
      kid := reply.value.location;
      r := Ok(());
    }

    /** A request whose answer must be a success with a JSON body. */
    method Ask(url: Json, payload: Payload) returns (r: Result<(Json, Option<string>)>)
      requires Valid()
      modifies this`count, this`directory, this`nonce, this`posts
      ensures Valid() && count >= old(count) && (if r.Ok? then count > old(count) else Unusable(Latest()))
      ensures (posts == old(posts) && r.Err?) || IsSent(old(posts), Post(url, None, kid, payload), posts)
      ensures r.Ok? ==> Latest().Reply? && Latest().ok && Latest().body == Some(r.value.0) && Latest().location == r.value.1
    {
      var reply :- Send(url, payload);
      if !reply.ok || reply.body.None? { return Err; }
      return Ok((reply.body.value, reply.location));
    }

    /** The order as the server describes it, and where it is to be found. */
    method PlaceOrder(names: seq<string>) returns (r: Result<(Json, Option<string>)>, ghost url: Json)
      requires Valid()
      modifies this`count, this`directory, this`nonce, this`posts
      ensures Valid()
      ensures (posts == old(posts) && r.Err?) || IsSent(old(posts), Post(url, None, kid, NewOrder(names)), posts)
      ensures r.Ok? ==> Latest().Reply? && Latest().ok && Latest().body == Some(r.value.0) && Latest().location == r.value.1
      ensures r.Err? ==> Unusable(Latest())
    {
      r, url := Err, Null;
      var dir := LoadDirectory();
      if dir.Err? { return; }
      var endpoint := Field(dir.value, "newOrder");
      if endpoint.Err? { return; }
      url := endpoint.value;
      r := Ask(endpoint.value, NewOrder(names));
    }

    /**
      * `pollUntil` on a resource: the first final answer, within twenty reads. Every read before it was
      * answered and not final; it fails only on an answer of no use, or after that many answers.
      */
    method PollUntil(url: Json) returns (r: Result<Json>, ghost at: seq<nat>)
      requires Valid()
      modifies this`count, this`directory, this`nonce, this`posts
      ensures Valid() && count >= old(count)
      ensures Reads(old(posts), posts, url, kid, 20) && Waiting(replies, old(count), count, at)
      ensures r.Ok? ==> Decided(r.value) && Latest().Reply? && Latest().ok && Latest().body == Some(r.value)
      ensures r.Ok? ==> |posts| == |old(posts)| + |at| + 1
      ensures r.Err? ==> Unusable(Latest()) || (|at| == 20 && !Decided(Latest().body.value))
    {
      at := [];
      for i := 0 to ATTEMPTS
        invariant Valid() && Reads(old(posts), posts, url, kid, i)
        invariant count >= old(count) && Waiting(replies, old(count), count, at) && |at| == i && |posts| == |old(posts)| + i
        invariant i > 0 ==> !Unusable(Latest()) && !Decided(Latest().body.value)
      {
        ghost var before := count;
        var last := Ask(url, Read);
        if last.Err? || Nullish(last.value.0) { return Err, at; }
        if IsFinal(last.value.0) { return Ok(last.value.0), at; }
        WaitOne(replies, old(count), before, at, count - 1);
        at := at + [count - 1];
      }
      return Err, at;
    }
  }
}

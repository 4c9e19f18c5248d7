/** `obtainCertificate`: one order from registration to certificate, and the challenges it arms on the way. */
module AcmeOrder {
  import opened Js
  import opened Acme

  const ACME_TLS := "acme-tls/1"
  const HTTP := "http/1.1"

  /** A challenge certificate with its key. */
  datatype Creds = Creds(key: string, cert: string)

  /**
    * What an order did to the challenges, in order. An accept is the request with that index among those
    * sent; the name is the one the challenge was for.
    */
  datatype Step =
    | Installed(name: Json, creds: Creds)
    | Hooked(name: Json, creds: Creds)
    | Accepted(name: Json, at: nat)
    | Removed(name: Json)

  /**
    * What lies outside the order: minting a certificate for a name and a challenge's token, the cluster's hook,
    * the request to sign for names.
    */
  datatype Outside = Outside(
    mint: (Json, Json) -> Option<Creds>, hook: (Json, Creds, nat) -> bool, csr: seq<string> -> Option<string>)

  // ---------------------------------------------------------------- what the steps come to

  /** The names whose challenge is installed after the steps. */
  function InstalledAfter(steps: seq<Step>): set<Json>
    decreases |steps|
  {
    if steps == [] then {}
    else
      var before := InstalledAfter(steps[..|steps| - 1]);
      match steps[|steps| - 1]
      case Installed(name, _) => before + {name}
      case Removed(name) => before - {name}
      case _ => before
  }

  /** Those among them whose hook has been awaited: every process can answer for them. */
  function ArmedAfter(steps: seq<Step>): set<Json>
    decreases |steps|
  {
    if steps == [] then {}
    else
      var first := steps[..|steps| - 1];
      var before := ArmedAfter(first);
      match steps[|steps| - 1]
      case Hooked(name, _) => if name in InstalledAfter(first) then before + {name} else before
      case Removed(name) => before - {name}
      case _ => before
  }

  /** Every name a challenge was ever installed for. */
  function Names(steps: seq<Step>): set<Json>
    decreases |steps|
  {
    if steps == [] then {}
    else
      Names(steps[..|steps| - 1]) + (if steps[|steps| - 1].Installed? then {steps[|steps| - 1].name} else {})
  }

  /** The names challenges were installed for, in order. */
  function Installs(steps: seq<Step>): seq<Json>
    decreases |steps|
  {
    if steps == [] then []
    else
      Installs(steps[..|steps| - 1]) + (if steps[|steps| - 1].Installed? then [steps[|steps| - 1].name] else [])
  }

  /** The accepts among the steps, by their place among the requests. */
  function Marks(steps: seq<Step>): seq<nat>
    decreases |steps|
  {
    if steps == [] then []
    else
      Marks(steps[..|steps| - 1]) + (if steps[|steps| - 1].Accepted? then [steps[|steps| - 1].at] else [])
  }

  /** The accepts among the requests sent. */
  function Accepts(posts: seq<Post>): seq<nat>
    decreases |posts|
  {
    if posts == [] then []
    else
      Accepts(posts[..|posts| - 1]) + (if posts[|posts| - 1].payload.Accept? then [|posts| - 1] else [])
  }

  /** Each accept that went out did so while its challenge was installed and its hook awaited. */
  ghost predicate AcceptedArmed(steps: seq<Step>) {
    forall i :: 0 <= i < |steps| && steps[i].Accepted? ==> steps[i].name in ArmedAfter(steps[..i])
  }

  lemma {:induction false} OneStep(done: seq<Step>, step: Step)
    ensures ArmedAfter(done + [step]) ==
              match step
              case Hooked(name, _) => if name in InstalledAfter(done) then ArmedAfter(done) + {name} else ArmedAfter(done)
              case Removed(name) => ArmedAfter(done) - {name}
              case _ => ArmedAfter(done)
    ensures InstalledAfter(done + [step]) ==
              match step
              case Installed(name, _) => InstalledAfter(done) + {name}
              case Removed(name) => InstalledAfter(done) - {name}
              case _ => InstalledAfter(done)
    ensures Names(done + [step]) == Names(done) + if step.Installed? then {step.name} else {}
    ensures Installs(done + [step]) == Installs(done) + if step.Installed? then [step.name] else []
    ensures Marks(done + [step]) == Marks(done) + if step.Accepted? then [step.at] else []
    ensures AcceptedArmed(done) && (step.Accepted? ==> step.name in ArmedAfter(done)) ==> AcceptedArmed(done + [step])
  {
    var more := done + [step];
    assert more[..|more| - 1] == done;
    assert forall i :: 0 <= i <= |done| ==> more[..i] == done[..i];
  }

  lemma {:induction false} SentOne(before: seq<Post>, post: Post, after: seq<Post>)
    requires IsSent(before, post, after)
    ensures Accepts(after) == Accepts(before) + if post.payload.Accept? then [|before|] else []
    ensures before != [] && Signed(before, post.signer) && !post.payload.NewAccount? ==> Signed(after, post.signer)
  {
    assert after[..|after| - 1] == before;
  }

  lemma {:induction false} SentReads(before: seq<Post>, url: Json, signer: Option<string>, after: seq<Post>, most: nat)
    requires Reads(before, after, url, signer, most)
    ensures Accepts(after) == Accepts(before)
    ensures before != [] && Signed(before, signer) ==> Signed(after, signer)
    decreases |after|
  {
    if |after| > |before| {
      SentReads(before, url, signer, after[..|after| - 1], most);
    } else {
      assert after == before;
    }
  }

  lemma {:induction false} InstalledRemoved(start: map<Json, Creds>, names: set<Json>, name: Json, creds: Creds)
    ensures (start - names)[name := creds] - {name} == start - (names + {name})
  {
  }

  // ---------------------------------------------------------------- the order

  /** The first challenge of the kind this server answers; a null among those before it throws. */
  function FindChallenge(challenges: seq<Json>): (r: Result<Json>)
    ensures r.Ok? ==> r.value in challenges && Get(r.value, "type") == Str("tls-alpn-01")
  {
    if challenges == [] || Nullish(challenges[0]) then Err
    else if Get(challenges[0], "type") == Str("tls-alpn-01") then Ok(challenges[0])
    else FindChallenge(challenges[1..])
  }

  /** `order.authorizations || []`, to be iterated: a string gives its characters, another value throws. */
  function Authorizations(order: Json): Result<seq<Json>> {
    if Nullish(order) then Err
    else
      var listed := Get(order, "authorizations");
      if !Truthy(listed) then Ok([])
      else if listed.Arr? then Ok(listed.items)
      else if listed.Str? then Ok(seq(|listed.s|, i requires 0 <= i < |listed.s| => Str([listed.s[i]])))
      else Err
  }

  // ---------------------------------------------------------------- what an order is to do

  /** The authorizations the order lists: none where the member is falsy, and one for each character of a string. */
  ghost predicate Listed(order: Json, urls: seq<Json>) {
    match Get(order, "authorizations")
    case Arr(items) => urls == items
    case Str(s) => |urls| == |s| && forall i :: 0 <= i < |s| ==> urls[i] == Str(s[i..i + 1])
    case other => urls == [] && !Truthy(other)
  }

  lemma {:induction false} ListedIs(order: Json)
    ensures Authorizations(order).Ok? ==> Listed(order, Authorizations(order).value)
    ensures Authorizations(order).Err? ==> Nullish(order) || forall urls :: !Listed(order, urls)
  {
  }

  /** Why an order fails once it is placed: at an authorization, or with each answered at what is asked for then. */
  ghost predicate FellThrough(outside: Outside, order: Json, names: seq<string>, authzs: seq<Json>, reply: Reply) {
    Unusable(reply) || (forall urls :: !Listed(order, urls)) ||
    exists urls ::
      Listed(order, urls) && |authzs| <= |urls| &&
      (|authzs| == |urls| ==> outside.csr(names).None? || Get(reply.body.value, "status") != Str("valid"))
  }

  /** The name an authorization is for: its own identifier's, else the first one ordered. */
  function NameOf(authz: Json, fallback: string): Json {
    FirstTruthy([Get(Get(authz, "identifier"), "value"), Str(fallback)])
  }

  function NamesOf(authzs: seq<Json>, fallback: string): seq<Json> {
    if authzs == [] then [] else NamesOf(authzs[..|authzs| - 1], fallback) + [NameOf(authzs[|authzs| - 1], fallback)]
  }

  /** The first of the authorization's challenges that is of the kind this server answers. */
  ghost predicate FirstChallenge(authz: Json, challenge: Json) {
    var listed := Get(authz, "challenges");
    listed.Arr? && IsFirst(listed.items, challenge)
  }

  ghost predicate IsFirst(challenges: seq<Json>, challenge: Json) {
    exists i ::
      0 <= i < |challenges| && challenges[i] == challenge && Is(challenge, "tls-alpn-01") &&
      forall j :: 0 <= j < i ==> !Is(challenges[j], "tls-alpn-01")
  }

  /** A challenge of the kind this server answers, with no null before it to trip over. */
  ghost predicate Answerable(authz: Json) {
    var listed := Get(authz, "challenges");
    listed.Arr? && exists i :: 0 <= i < |listed.items| && Is(listed.items[i], "tls-alpn-01") &&
                               forall j :: 0 <= j < i ==> !Nullish(listed.items[j])
  }

  /** Why an authorization is not tried: no usable answer, nothing in it to answer, or nothing to answer with. */
  ghost predicate Untried(outside: Outside, fallback: string, reply: Reply) {
    Unusable(reply) || !Answerable(reply.body.value) ||
    exists challenge ::
      FirstChallenge(reply.body.value, challenge) &&
      outside.mint(NameOf(reply.body.value, fallback), Get(challenge, "token")).None?
  }

  /** Why one that was tried fails: the hook, before anything is accepted; or the server's last answer. */
  ghost predicate Unmet(outside: Outside, name: Json, creds: Creds, hooked: bool, reply: Reply) {
    if hooked then Unusable(reply) || Get(reply.body.value, "status") != Str("valid")
    else exists at :: !outside.hook(name, creds, at)
  }

  lemma {:induction false} FoundIfAny(challenges: seq<Json>)
    requires FindChallenge(challenges).Err?
    ensures forall i :: 0 <= i < |challenges| && Is(challenges[i], "tls-alpn-01") ==>
              exists j :: 0 <= j < i && Nullish(challenges[j])
  {
    if challenges != [] && !Nullish(challenges[0]) {
      var rest := challenges[1..];
      FoundIfAny(rest);
      forall i | 0 <= i < |challenges| && Is(challenges[i], "tls-alpn-01")
        ensures exists j :: 0 <= j < i && Nullish(challenges[j])
      {
        assert rest[i - 1] == challenges[i];
        var j :| 0 <= j < i - 1 && Nullish(rest[j]);
        assert challenges[j + 1] == rest[j];
      }
    }
  }

  /** One authorization as it was tried: what was read, what was minted, and the steps up to its removal. */
  datatype Attempt = Attempt(authz: Json, challenge: Json, creds: Creds, steps: seq<Step>)

  /** The hook was awaited with what is installed, and the accept was posted to the challenge's own url. */
  ghost predicate Answered(before: seq<Step>, name: Json, creds: Creds, after: seq<Step>, posts: seq<Post>, url: Json) {
    before <= after && |after| <= |before| + 2 && (|after| > |before| ==> after[|before|] == Hooked(name, creds)) &&
    (|after| == |before| + 2 ==>
       var last := after[|before| + 1];
       last.Accepted? && last.name == name && AcceptedAt(posts, last.at, url))
  }

  ghost predicate AcceptedAt(posts: seq<Post>, at: nat, url: Json) {
    at < |posts| && posts[at].url == url && posts[at].payload.Accept?
  }

  /** The challenge installed is minted for the authorization's own name and its challenge's token. */
  ghost predicate Tried(
      outside: Outside, fallback: string, before: seq<Step>, t: Attempt, posts: seq<Post>, after: seq<Step>)
  {
    var name := NameOf(t.authz, fallback);
    FirstChallenge(t.authz, t.challenge) && outside.mint(name, Get(t.challenge, "token")) == Some(t.creds) &&
    Answered(before + [Installed(name, t.creds)], name, t.creds, t.steps, posts, Get(t.challenge, "url")) &&
    after == t.steps + [Removed(name)]
  }

  /** The server gave this as the body of a reply, at one of these places. */
  ghost predicate Gave(replies: nat -> Reply, start: nat, end: nat, body: Json) {
    exists k: nat :: start <= k < end && replies(k).Reply? && replies(k).ok && replies(k).body == Some(body)
  }

  ghost predicate ReadOf(posts: seq<Post>, start: nat, url: Json) {
    start < |posts| && posts[start].url == url && posts[start].payload.Read?
  }

  lemma {:induction false} InstallsTried(outside: Outside, fallback: string, before: seq<Step>, t: Attempt,
      posts: seq<Post>, after: seq<Step>)
    requires Tried(outside, fallback, before, t, posts, after)
    ensures Installs(after) == Installs(before) + [NameOf(t.authz, fallback)]
  {
    var name := NameOf(t.authz, fallback);
    var first := before + [Installed(name, t.creds)];
    OneStep(before, Installed(name, t.creds));
    OneStep(t.steps, Removed(name));
    InstallsGrow(first, t.steps);
    ConcatNothing(Installs(t.steps));
  }

  lemma {:induction false} InstallsGrow(before: seq<Step>, after: seq<Step>)
    requires before <= after && forall i :: |before| <= i < |after| ==> !after[i].Installed?
    ensures Installs(after) == Installs(before)
    decreases |after|
  {
    if |after| == |before| {
      assert after == before;
    } else {
      InstallsGrow(before, after[..|after| - 1]);
      ConcatNothing(Installs(before));
    }
  }

  /** Each was given by the server, and each url was read. */
  ghost predicate Authorized(replies: nat -> Reply, count: nat, posts: seq<Post>, urls: seq<Json>, authzs: seq<Json>) {
    |authzs| <= |urls| &&
    forall i :: 0 <= i < |authzs| ==> Gave(replies, 0, count, authzs[i]) && exists p: nat :: ReadOf(posts, p, urls[i])
  }

  lemma {:induction false} AuthorizedStays(replies: nat -> Reply, count: nat, later: nat, posts: seq<Post>,
      more: seq<Post>, urls: seq<Json>, authzs: seq<Json>)
    requires Authorized(replies, count, posts, urls, authzs) && count <= later && posts <= more
    ensures Authorized(replies, later, more, urls, authzs)
  {
    forall i | 0 <= i < |authzs|
      ensures Gave(replies, 0, later, authzs[i]) && exists p: nat :: ReadOf(more, p, urls[i])
    {
      assert Gave(replies, 0, count, authzs[i]);
      var p: nat :| ReadOf(posts, p, urls[i]);
      assert ReadOf(more, p, urls[i]);
    }
  }

  lemma {:induction false} AuthorizedMore(replies: nat -> Reply, count: nat, later: nat, posts: seq<Post>,
      more: seq<Post>, urls: seq<Json>, authzs: seq<Json>, authz: Json)
    requires Authorized(replies, count, posts, urls, authzs) && count <= later && posts <= more && |authzs| < |urls|
    requires Gave(replies, count, later, authz) && ReadOf(more, |posts|, urls[|authzs|])
    ensures Authorized(replies, later, more, urls, authzs + [authz])
  {
    AuthorizedStays(replies, count, later, posts, more, urls, authzs);
  }

  lemma {:induction false} InstallsMore(outside: Outside, fallback: string, base: seq<Json>, authzs: seq<Json>,
      before: seq<Step>, t: Attempt, posts: seq<Post>, after: seq<Step>)
    requires Installs(before) == base + NamesOf(authzs, fallback) && Tried(outside, fallback, before, t, posts, after)
    ensures Installs(after) == base + NamesOf(authzs + [t.authz], fallback)
  {
    InstallsTried(outside, fallback, before, t, posts, after);
    NamesOne(authzs, t.authz, fallback);
    Assoc(base, NamesOf(authzs, fallback), [NameOf(t.authz, fallback)]);
  }

  lemma {:induction false} NamesOne(authzs: seq<Json>, authz: Json, fallback: string)
    ensures NamesOf(authzs + [authz], fallback) == NamesOf(authzs, fallback) + [NameOf(authz, fallback)]
  {
    Snoc(authzs, authz, authzs + [authz]);
  }

  lemma {:induction false} FoundFirst(challenges: seq<Json>)
    requires FindChallenge(challenges).Ok?
    ensures IsFirst(challenges, FindChallenge(challenges).value)
  {
    if !Is(challenges[0], "tls-alpn-01") {
      FoundFirst(challenges[1..]);
      var i :| 0 <= i < |challenges[1..]| && challenges[1..][i] == FindChallenge(challenges).value &&
        Is(challenges[1..][i], "tls-alpn-01") && forall j :: 0 <= j < i ==> !Is(challenges[1..][j], "tls-alpn-01");
      assert challenges[i + 1] == challenges[1..][i];
      assert forall j :: 0 < j < i + 1 ==> challenges[j] == challenges[1..][j - 1];
    }
  }

  /** The request to sign was for the names ordered, sent to the order; its certificate was read from where it says. */
  ghost predicate Collected(outside: Outside, posts: seq<Post>, at: nat, order: Json, names: seq<string>, done: Json) {
    at < |posts| - 1 && posts[at].url == Get(order, "finalize") && outside.csr(names).Some? &&
    posts[at].payload == Finalize(outside.csr(names).value) && Get(done, "status") == Str("valid") &&
    ReadOf(posts, |posts| - 1, Get(done, "certificate"))
  }

  // ---------------------------------------------------------------- what a handshake is answered with

  /** `selectAlpn`: the challenge protocol only where a challenge is pending for that name. */
  function SelectAlpn(pending: map<Json, Creds>, servername: Option<string>, protocols: seq<string>): Option<string> {
    if ACME_TLS in protocols && servername.Some? && Str(servername.value) in pending then Some(ACME_TLS)
    else if HTTP in protocols then Some(HTTP)
    else None
  }

  /**
    * The challenge protocol is negotiated just for the names that were pending before and not installed since;
    * for any other name HTTP/1.1, where it is offered, and otherwise nothing.
    */
  ghost predicate AnswersOnly(pending: map<Json, Creds>, before: map<Json, Creds>, installed: set<Json>) {
    forall name: Option<string>, protocols: seq<string> ::
      var challenge := "acme-tls/1" in protocols && name.Some? && Str(name.value) in before && Str(name.value) !in installed;
      (SelectAlpn(pending, name, protocols) == Some("acme-tls/1") <==> challenge) &&
      (SelectAlpn(pending, name, protocols) == Some("http/1.1") <==> !challenge && "http/1.1" in protocols) &&
      (SelectAlpn(pending, name, protocols).None? <==> !challenge && "http/1.1" !in protocols)
  }

  lemma {:induction false} NotNegotiatedAfter(before: map<Json, Creds>, installed: set<Json>)
    ensures AnswersOnly(before - installed, before, installed)
  {
    assert ACME_TLS[0] != HTTP[0];
  }

  class Runner {
    const outside: Outside
    var pending: map<Json, Creds>
    ghost var steps: seq<Step>

    constructor (outside: Outside)
      ensures this.outside == outside && pending == map[] && steps == []
    {
      this.outside, pending, steps := outside, map[], [];
    }

    /** Each accept among the requests is a step taken while armed. */
    ghost predicate Kept(client: AcmeClient)
      reads this, client
    {
      client.Valid() && AcceptedArmed(steps) && Marks(steps) == Accepts(client.posts) &&
      client.posts != [] && Signed(client.posts, client.kid)
    }

    method Install(name: Json, creds: Creds)
      modifies this`pending, this`steps
      ensures steps == old(steps) + [Installed(name, creds)] && pending == old(pending)[name := creds]
      ensures InstalledAfter(steps) == InstalledAfter(old(steps)) + {name} && Names(steps) == Names(old(steps)) + {name}
      ensures Marks(steps) == Marks(old(steps)) && (AcceptedArmed(old(steps)) ==> AcceptedArmed(steps))
    {
      OneStep(steps, Installed(name, creds));
      pending, steps := pending[name := creds], steps + [Installed(name, creds)];
    }

    method Remove(name: Json)
      modifies this`pending, this`steps
      ensures steps == old(steps) + [Removed(name)] && pending == old(pending) - {name}
      ensures InstalledAfter(steps) == InstalledAfter(old(steps)) - {name} && Names(steps) == Names(old(steps))
      ensures Marks(steps) == Marks(old(steps)) && (AcceptedArmed(old(steps)) ==> AcceptedArmed(steps))
    {
      OneStep(steps, Removed(name));
      pending, steps := pending - {name}, steps + [Removed(name)];
    }

    /** Await the hook on what is installed, so that every process can answer, before anything is accepted. */
    method AwaitHook(name: Json, at: nat) returns (ok: bool)
      requires name in InstalledAfter(steps) && name in pending
      modifies this`steps
      ensures steps == if ok then old(steps) + [Hooked(name, pending[name])] else old(steps)
      ensures InstalledAfter(steps) == InstalledAfter(old(steps)) && Names(steps) == Names(old(steps))
      ensures Marks(steps) == Marks(old(steps)) && (AcceptedArmed(old(steps)) ==> AcceptedArmed(steps))
      ensures ok == outside.hook(name, pending[name], at) && (ok ==> name in ArmedAfter(steps))
    {
      ok := outside.hook(name, pending[name], at);
      if ok {
        OneStep(steps, Hooked(name, pending[name]));
        steps := steps + [Hooked(name, pending[name])];
      }
    }

    /** Tell the server to validate; it may do so the instant it hears of it. */
    method AcceptChallenge(client: AcmeClient, name: Json, url: Json) returns (r: Result<()>)
      requires Kept(client) && name in ArmedAfter(steps)
      modifies this`steps, client`count, client`directory, client`nonce, client`posts
      ensures Kept(client) && InstalledAfter(steps) == InstalledAfter(old(steps)) && Names(steps) == Names(old(steps))
      ensures r.Ok? ==> Marks(steps) == Marks(old(steps)) + [old(|client.posts|)]
      ensures r.Err? ==> Unusable(client.Latest())
      ensures client.count >= old(client.count)
      ensures (r.Err? && client.posts == old(client.posts) && steps == old(steps)) ||
              (IsSent(old(client.posts), Post(url, None, client.kid, Accept), client.posts) &&
               steps == old(steps) + [Accepted(name, old(|client.posts|))])
    {
      ghost var before := client.posts;
      var answer := client.Ask(url, Accept);
      ghost var accepted := Accepted(name, |before|);
      if client.posts != before {
        SentOne(before, Post(url, None, client.kid, Accept), client.posts);
        OneStep(steps, accepted);
        steps := steps + [accepted];
      }
      return if answer.Ok? then Ok(()) else Err;
    }

    /** What is tried while the challenge is installed. */
    method Validate(client: AcmeClient, name: Json, authzUrl: Json, url: Json) returns (r: Result<()>)
      requires Kept(client) && name in InstalledAfter(steps) && name in pending
      modifies this`steps, client`count, client`directory, client`nonce, client`posts
      ensures Kept(client) && InstalledAfter(steps) == InstalledAfter(old(steps)) && Names(steps) == Names(old(steps))
      ensures r.Ok? ==> |Marks(steps)| == |Marks(old(steps))| + 1
      ensures r.Ok? ==> client.Latest().Reply? && client.Latest().body.Some? &&
                        Get(client.Latest().body.value, "status") == Str("valid")
      ensures old(client.posts) <= client.posts && client.count >= old(client.count)
      ensures Answered(old(steps), name, pending[name], steps, client.posts, url)
      ensures r.Ok? ==> |steps| == |old(steps)| + 2
      ensures r.Err? ==> Unmet(outside, name, pending[name], |steps| > |old(steps)|, client.Latest())
    {
      var hooked := AwaitHook(name, client.count);
      if !hooked { return Err; }
      r := AcceptAndAwait(client, name, authzUrl, url);
    }

    /** Accept while armed, and wait for the server to decide. */
    method AcceptAndAwait(client: AcmeClient, name: Json, authzUrl: Json, url: Json) returns (r: Result<()>)
      requires Kept(client) && name in ArmedAfter(steps)
      modifies this`steps, client`count, client`directory, client`nonce, client`posts
      ensures Kept(client) && InstalledAfter(steps) == InstalledAfter(old(steps)) && Names(steps) == Names(old(steps))
      ensures r.Ok? ==> |Marks(steps)| == |Marks(old(steps))| + 1 && |steps| == |old(steps)| + 1
      ensures r.Ok? ==> client.Latest().Reply? && client.Latest().body.Some? &&
                        Get(client.Latest().body.value, "status") == Str("valid")
      ensures old(client.posts) <= client.posts && client.count >= old(client.count)
      ensures steps == old(steps) || (steps == old(steps) + [Accepted(name, old(|client.posts|))] &&
                                      AcceptedAt(client.posts, old(|client.posts|), url))
      ensures r.Err? ==> Unusable(client.Latest()) || Get(client.Latest().body.value, "status") != Str("valid")
    {
      var accepted := AcceptChallenge(client, name, url);
      if accepted.Err? { return Err; }
      var authz := AwaitValid(client, authzUrl);
      return if authz.Err? then Err else Ok(());
    }

    /** Read a resource until it is decided; only a valid one will do. */
    method AwaitValid(client: AcmeClient, url: Json) returns (r: Result<Json>)
      requires Kept(client)
      modifies client`count, client`directory, client`nonce, client`posts
      ensures Kept(client) && old(client.posts) <= client.posts && client.count >= old(client.count)
      ensures Accepts(client.posts) == old(Accepts(client.posts))
      ensures r.Ok? ==> client.Latest().Reply? && client.Latest().body == Some(r.value) &&
                        Get(r.value, "status") == Str("valid")
      ensures r.Err? ==> Unusable(client.Latest()) || Get(client.Latest().body.value, "status") != Str("valid")
    {
      ghost var before := client.posts;
      var final, waited := client.PollUntil(url);
      SentReads(before, url, client.kid, client.posts, 20);
      return if final.Ok? && Get(final.value, "status") == Str("valid") then final else Err;
    }

    /** One authorization: find its challenge, install, validate, and disarm whatever came of it. */
    method Authorize(client: AcmeClient, authzUrl: Json, fallback: string, ghost start: map<Json, Creds>)
        returns (r: Result<()>, ghost tried: Option<Attempt>)
      requires Kept(client) && InstalledAfter(steps) == {} && pending == start - Names(steps)
      modifies this, client
      ensures Kept(client) && InstalledAfter(steps) == {} && pending == start - Names(steps)
      ensures r.Ok? ==> |Marks(steps)| == |Marks(old(steps))| + 1
      ensures old(client.posts) <= client.posts && client.count >= old(client.count)
      ensures match tried
              case None => r.Err? && steps == old(steps) && Untried(outside, fallback, client.Latest())
              case Some(t) =>
                Tried(outside, fallback, old(steps), t, client.posts, steps) && (r.Ok? ==> |t.steps| == |old(steps)| + 3) &&
                ReadOf(client.posts, old(|client.posts|), authzUrl) &&
                Gave(client.replies, old(client.count), client.count, t.authz) &&
                (r.Err? ==>
                  Unmet(outside, NameOf(t.authz, fallback), t.creds, |t.steps| > |old(steps)| + 1, client.Latest()))
    {
      tried := None;
      var found := TlsAlpnChallenge(client, authzUrl);
      if found.Err? { return Err, None; }
      var (authz, challenge) := found.value;
      FirstOfTwo(Get(Get(authz, "identifier"), "value"), Str(fallback));
      var name := OrTruthy(Get(Get(authz, "identifier"), "value"), Str(fallback));
      var creds := outside.mint(name, Get(challenge, "token"));
      if creds.None? { return Err, None; }
      ghost var after;
      r, after := Challenge(client, authzUrl, name, creds.value, Get(challenge, "url"), start);
      tried := Some(Attempt(authz, challenge, creds.value, after));
    }

    /** Have a challenge installed while it is validated, and no longer. */
    method Challenge(client: AcmeClient, authzUrl: Json, name: Json, creds: Creds, url: Json,
        ghost start: map<Json, Creds>)
        returns (r: Result<()>, ghost after: seq<Step>)
      requires Kept(client) && InstalledAfter(steps) == {} && pending == start - Names(steps)
      modifies this, client`count, client`directory, client`nonce, client`posts
      ensures Kept(client) && InstalledAfter(steps) == {} && pending == start - Names(steps)
      ensures r.Ok? ==> |Marks(steps)| == |Marks(old(steps))| + 1
      ensures old(client.posts) <= client.posts && client.count >= old(client.count)
      ensures Answered(old(steps) + [Installed(name, creds)], name, creds, after, client.posts, url)
      ensures steps == after + [Removed(name)] && (r.Ok? ==> |after| == |old(steps)| + 3)
      ensures r.Err? ==> Unmet(outside, name, creds, |after| > |old(steps)| + 1, client.Latest())
    {
      InstalledRemoved(start, Names(steps), name, creds);
      Install(name, creds);
      r := Validate(client, name, authzUrl, url);
      after := steps;
      Remove(name);
    }

    /** The authorization and its challenge of the kind this server answers. */
    method TlsAlpnChallenge(client: AcmeClient, url: Json) returns (r: Result<(Json, Json)>)
      requires Kept(client)
      modifies client`count, client`directory, client`nonce, client`posts
      ensures Kept(client) && old(client.posts) <= client.posts && client.count >= old(client.count)
      ensures r.Ok? ==> FirstChallenge(r.value.0, r.value.1) && ReadOf(client.posts, old(|client.posts|), url) &&
                        Gave(client.replies, old(client.count), client.count, r.value.0) &&
                        !Unusable(client.Latest()) && client.Latest().body.value == r.value.0
      ensures r.Err? ==> Unusable(client.Latest()) || !Answerable(client.Latest().body.value)
    {
      ghost var before := client.posts;
      var answer := client.Ask(url, Read);
      if client.posts != before { SentOne(before, Post(url, None, client.kid, Read), client.posts); }
      if answer.Err? || Nullish(answer.value.0) { return Err; }
      assert client.replies(client.count - 1).body == Some(answer.value.0);
      var listed := Get(answer.value.0, "challenges");
      if !listed.Arr? { return Err; }
      var challenge := FindChallenge(listed.items);
      if challenge.Err? {
        FoundIfAny(listed.items);
        return Err;
      }
      FoundFirst(listed.items);
      return Ok((answer.value.0, challenge.value));
    }

    /** Answer every authorization of the order, in order. */
    method AnswerAll(client: AcmeClient, urls: seq<Json>, fallback: string, ghost start: map<Json, Creds>)
        returns (r: Result<()>, ghost authzs: seq<Json>)
      requires Kept(client) && InstalledAfter(steps) == {} && pending == start - Names(steps)
      modifies this, client
      ensures Kept(client) && InstalledAfter(steps) == {} && pending == start - Names(steps)
      ensures r.Ok? ==> |Marks(steps)| == |Marks(old(steps))| + |urls|
      ensures old(client.posts) <= client.posts && client.count >= old(client.count)
      ensures Authorized(client.replies, client.count, client.posts, urls, authzs)
      ensures r.Err? ==> |authzs| < |urls|
      ensures r.Ok? ==> |authzs| == |urls| && Installs(steps) == Installs(old(steps)) + NamesOf(authzs, fallback)
    {
      authzs := [];
      ConcatNothing(Installs(steps));
      for i := 0 to |urls|
        invariant Kept(client) && InstalledAfter(steps) == {} && pending == start - Names(steps)
        invariant |Marks(steps)| == |Marks(old(steps))| + i
        invariant old(client.posts) <= client.posts && client.count >= old(client.count)
        invariant |authzs| == i && Authorized(client.replies, client.count, client.posts, urls, authzs)
        invariant Installs(steps) == Installs(old(steps)) + NamesOf(authzs, fallback)
      {
        ghost var before, count, posts := steps, client.count, client.posts;
        var one, tried := Authorize(client, urls[i], fallback, start);
        if one.Err? {
          AuthorizedStays(client.replies, count, client.count, posts, client.posts, urls, authzs);
          return Err, authzs;
        }
        AuthorizedMore(client.replies, count, client.count, posts, client.posts, urls, authzs, tried.value.authz);
        InstallsMore(outside, fallback, Installs(old(steps)), authzs, before, tried.value, client.posts, steps);
        authzs := authzs + [tried.value.authz];
      }
      return Ok(()), authzs;
    }

    /** Send the request to sign and bring back what was issued for it. */
    method Collect(client: AcmeClient, order: Json, orderUrl: Option<string>, names: seq<string>)
        returns (r: Result<string>, ghost done: Json)
      requires Kept(client) && !Nullish(order)
      modifies client
      ensures Kept(client) && Accepts(client.posts) == old(Accepts(client.posts)) && old(client.posts) <= client.posts
      ensures client.count >= old(client.count)
      ensures r.Ok? ==> client.Latest().Reply? && client.Latest().ok && r.value == client.Latest().text
      ensures r.Ok? ==> Collected(outside, client.posts, old(|client.posts|), order, names, done)
      ensures r.Err? ==> outside.csr(names).None? || Unusable(client.Latest()) ||
                         Get(client.Latest().body.value, "status") != Str("valid")
    {
      done := Null;
      var csr := outside.csr(names);
      if csr.None? { return Err, done; }
      ghost var before := client.posts;
      var finalized := client.Ask(Get(order, "finalize"), Finalize(csr.value));
      if client.posts != before {
        SentOne(before, Post(Get(order, "finalize"), None, client.kid, Finalize(csr.value)), client.posts);
      }
      if finalized.Err? { return Err, done; }
      r, done := Download(client, orderUrl);
    }

    /** Wait for the order to be valid, and fetch the certificate from where it says. */
    method Download(client: AcmeClient, orderUrl: Option<string>) returns (r: Result<string>, ghost done: Json)
      requires Kept(client)
      modifies client
      ensures Kept(client) && Accepts(client.posts) == old(Accepts(client.posts)) && old(client.posts) <= client.posts
      ensures client.count >= old(client.count)
      ensures r.Ok? ==> client.Latest().Reply? && client.Latest().ok && r.value == client.Latest().text
      ensures r.Ok? ==> |client.posts| > old(|client.posts|) && Get(done, "status") == Str("valid") &&
                        ReadOf(client.posts, |client.posts| - 1, Get(done, "certificate"))
      ensures r.Err? ==> Unusable(client.Latest()) || Get(client.Latest().body.value, "status") != Str("valid")
    {
      var final := AwaitValid(client, if orderUrl.Some? then Str(orderUrl.value) else Null);
      done := if final.Ok? then final.value else Null;
      if final.Err? { return Err, done; }
      ghost var before := client.posts;
      var certUrl := Get(final.value, "certificate");
      var chain := client.Send(certUrl, Read);
      if client.posts != before { SentOne(before, Post(certUrl, None, client.kid, Read), client.posts); }
      r := if chain.Err? || !chain.value.ok then Err else Ok(chain.value.text);
    }

    /**
      * An order, from a client that has sent nothing. Whatever the server, the hook and the tools it calls do,
      * no nonce is sent twice, the account is registered first and every later request is signed by its key id,
      * each accept is sent while its challenge is installed and its hook awaited, and the challenges pending
      * afterwards are those pending before that the order did not install: only for these is a handshake still
      * answered with the challenge protocol. When it succeeds, the order asked for the names given, the challenges
      * were installed for the names of its authorizations, one by one, and the certificate is the one requested.
      */
    method ObtainCertificate(client: AcmeClient, domains: seq<string>, domain: string)
        returns (r: Result<string>, ghost order: Json, ghost authzs: seq<Json>, ghost done: Json)
      requires client.Valid() && client.posts == []
      modifies this, client
      ensures NoReplay(client.posts) && Signed(client.posts, client.kid)
      ensures AcceptedArmed(steps) && Marks(steps) == Accepts(client.posts)
      ensures InstalledAfter(steps) == {} && pending == old(pending) - Names(steps)
      ensures AnswersOnly(pending, old(pending), Names(steps))
      ensures r.Ok? ==> client.Latest().Reply? && client.Latest().ok && r.value == client.Latest().text
      ensures var given := if domains != [] then domains else [domain];
              var names := NonEmpty(given);
              AreNamed(given, names) &&
              if r.Ok? then
                names != [] && |client.posts| > 2 && client.posts[1].payload == NewOrder(names) &&
                Fulfilled(client, order, names, authzs, done)
              else names == [] || FellThrough(outside, order, names, authzs, client.Latest())
    {
      ghost var start := pending;
      steps := [];
      assert start - {} == start;
      forall installed { NotNegotiatedAfter(start, installed); }
      r, order, authzs, done := Err, Null, [], Null;
      var names := NonEmpty(if domains != [] then domains else [domain]);
      NonEmptyIs(if domains != [] then domains else [domain]);
      if names == [] { return; }
      r, order, authzs, done := Order(client, names, start);
    }

    /** Place an order for these names, and see it through. */
    method Order(client: AcmeClient, names: seq<string>, ghost start: map<Json, Creds>)
        returns (r: Result<string>, ghost order: Json, ghost authzs: seq<Json>, ghost done: Json)
      requires client.Valid() && client.posts == [] && steps == [] && pending == start - Names(steps) && names != []
      modifies this, client
      ensures client.Valid() && Signed(client.posts, client.kid)
      ensures AcceptedArmed(steps) && Marks(steps) == Accepts(client.posts)
      ensures InstalledAfter(steps) == {} && pending == start - Names(steps)
      ensures r.Ok? ==> client.Latest().Reply? && client.Latest().ok && r.value == client.Latest().text
      ensures r.Ok? ==> |client.posts| > 2 && client.posts[1].payload == NewOrder(names) &&
                        Fulfilled(client, order, names, authzs, done)
      ensures r.Err? ==> FellThrough(outside, order, names, authzs, client.Latest())
    {
      r, order, authzs, done := Err, Null, [], Null;
      var placed := Begin(client, names);
      if placed.Err? { return; }
      order := placed.value.0;
      r, authzs, done := Fulfil(client, placed.value.0, placed.value.1, names, start);
    }

    /** What a successful order has come to. */
    ghost predicate Fulfilled(client: AcmeClient, order: Json, names: seq<string>, authzs: seq<Json>, done: Json)
      requires names != []
      reads this, client
    {
      Installs(steps) == NamesOf(authzs, names[0]) &&
      (exists urls :: Listed(order, urls) && |Accepts(client.posts)| == |authzs| == |urls| &&
         Authorized(client.replies, client.count, client.posts, urls, authzs)) &&
      exists at: nat :: Collected(outside, client.posts, at, order, names, done)
    }

    /** Answer the order's authorizations, and collect the certificate. */
    method Fulfil(client: AcmeClient, order: Json, orderUrl: Option<string>, names: seq<string>,
        ghost start: map<Json, Creds>)
        returns (r: Result<string>, ghost authzs: seq<Json>, ghost done: Json)
      requires Kept(client) && steps == [] && pending == start - Names(steps) && names != []
      requires Nullish(order) ==> Unusable(client.Latest())
      modifies this, client
      ensures Kept(client) && InstalledAfter(steps) == {} && pending == start - Names(steps)
      ensures old(client.posts) <= client.posts
      ensures r.Ok? ==> client.Latest().Reply? && client.Latest().ok && r.value == client.Latest().text
      ensures r.Ok? ==> |client.posts| > |old(client.posts)| && Fulfilled(client, order, names, authzs, done)
      ensures r.Err? ==> FellThrough(outside, order, names, authzs, client.Latest())
    {
      authzs, done := [], Null;
      var urls := Authorizations(order);
      if urls.Err? { return Err, authzs, done; }
      ListedIs(order);
      var answered;
      answered, authzs := AnswerAll(client, urls.value, names[0], start);
      if answered.Err? { return Err, authzs, done; }
      ConcatNothing(NamesOf(authzs, names[0]));
      ghost var count, posts := client.count, client.posts;
      r, done := Collect(client, order, orderUrl, names);
      AuthorizedStays(client.replies, count, client.count, posts, client.posts, urls.value, authzs);
      assert r.Ok? ==> Collected(outside, client.posts, |posts|, order, names, done);
    }

    /** Register, then ask for the order; nothing is accepted yet. */
    method Begin(client: AcmeClient, names: seq<string>) returns (r: Result<(Json, Option<string>)>)
      requires client.Valid() && client.posts == []
      modifies client
      ensures client.Valid() && Accepts(client.posts) == [] && Signed(client.posts, client.kid)
      ensures r.Ok? ==> client.posts != [] && client.Latest().Reply? && client.Latest().body == Some(r.value.0)
      ensures r.Err? ==> Unusable(client.Latest())
      ensures r.Ok? ==> client.Latest().ok
      ensures r.Ok? ==> |client.posts| == 2 && client.posts[1].payload == NewOrder(names)
    {
      ghost var signer, account, endpoint := client.kid, Null, Null;
      var registered;
      registered, account := client.Register();
      ghost var before := client.posts;
      if before != [] { SentOne([], Post(account, None, signer, NewAccount), before); }
      if registered.Err? { return Err; }
      r, endpoint := client.PlaceOrder(names);
      if client.posts != before { SentOne(before, Post(endpoint, None, client.kid, NewOrder(names)), client.posts); }
    }
  }
}

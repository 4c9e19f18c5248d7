/** `verifyChainToRoots`: walking a certificate chain from the leaf up to a pinned root. */
module ChainWalk {
  import opened Js

  const SERVER_AUTH := "1.3.6.1.5.5.7.3.1"

  /** What is read of a parsed certificate; times are milliseconds. */
  datatype Certificate = Certificate(
    fingerprint: string, key: string, ca: bool, notBefore: int, notAfter: int, usages: seq<string>, altNames: string)

  /** The two checks on a certificate and its issuer, left abstract: names and extensions, and the signature. */
  datatype Checks = Checks(issued: (Certificate, Certificate) -> bool, signed: (Certificate, string) -> bool)

  datatype Verdict =
    | Trusted(leaf: Certificate, depth: nat)
    | NoCertificate | NoRoots | NotServerAuth
    | NotCa(at: nat) | OutsideValidity(at: nat) | Broken(at: nat)
    | NotAnchored(at: nat)

  predicate Links(checks: Checks, subject: Certificate, issuer: Certificate) {
    checks.issued(subject, issuer) && checks.signed(subject, issuer.key)
  }

  predicate InDate(c: Certificate, now: int) {
    c.notBefore <= now <= c.notAfter
  }

  /** The certificate is a pinned root or signed by one. */
  predicate Anchored(checks: Checks, c: Certificate, roots: seq<Certificate>) {
    exists i :: 0 <= i < |roots| && (roots[i].fingerprint == c.fingerprint || Links(checks, c, roots[i]))
  }

  /** One certificate vouches for the one before it: an authority, in date, that issued and signed it. */
  ghost predicate Vouches(checks: Checks, subject: Certificate, issuer: Certificate, now: int) {
    issuer.ca && issuer.notBefore <= now && now <= issuer.notAfter &&
    checks.issued(subject, issuer) && checks.signed(subject, issuer.key)
  }

  /** A pinned root has the certificate's fingerprint, or issued and signed it. */
  ghost predicate Rooted(checks: Checks, c: Certificate, roots: seq<Certificate>) {
    exists root :: root in roots &&
      (c.fingerprint == root.fingerprint || (checks.issued(c, root) && checks.signed(c, root.key)))
  }

  lemma {:induction false} RootedIs(checks: Checks, c: Certificate, roots: seq<Certificate>)
    ensures Anchored(checks, c, roots) <==> Rooted(checks, c, roots)
  {
  }

  /**
    * A certification path (section 6.1 of RFC 5280, in part), inductively: a certificate anchored at a root,
    * or one vouched for by the first of such a path.
    */
  ghost predicate Path(checks: Checks, certs: seq<Certificate>, roots: seq<Certificate>, now: int)
    decreases |certs|
  {
    certs != [] &&
    if |certs| == 1 then Rooted(checks, certs[0], roots)
    else Vouches(checks, certs[0], certs[1], now) && Path(checks, certs[1..], roots, now)
  }

  /** Every link below `upto` holds. */
  ghost predicate LinkedTo(checks: Checks, certs: seq<Certificate>, now: int, upto: nat) {
    forall i :: 0 < i < upto && i < |certs| ==> Vouches(checks, certs[i - 1], certs[i], now)
  }

  lemma {:induction false} PathByIndex(checks: Checks, certs: seq<Certificate>, roots: seq<Certificate>, now: int)
    requires certs != []
    ensures Path(checks, certs, roots, now) <==>
            LinkedTo(checks, certs, now, |certs|) && Rooted(checks, certs[|certs| - 1], roots)
    decreases |certs|
  {
    if |certs| > 1 {
      PathByIndex(checks, certs[1..], roots, now);
      if LinkedTo(checks, certs, now, |certs|) {
        forall i | 0 < i < |certs| - 1 ensures Vouches(checks, certs[1..][i - 1], certs[1..][i], now) {
          assert Vouches(checks, certs[(i + 1) - 1], certs[i + 1], now);
        }
      }
      if Vouches(checks, certs[0], certs[1], now) && LinkedTo(checks, certs[1..], now, |certs| - 1) {
        forall i | 0 < i < |certs| ensures Vouches(checks, certs[i - 1], certs[i], now) {
          if i > 1 { assert Vouches(checks, certs[1..][(i - 1) - 1], certs[1..][i - 1], now); }
        }
      }
    }
  }

  /** What the chain is accepted for. */
  ghost predicate Accepts(checks: Checks, certs: seq<Certificate>, roots: seq<Certificate>, now: int) {
    certs != [] && "1.3.6.1.5.5.7.3.1" in certs[0].usages && Path(checks, certs, roots, now)
  }

  /** Why a link is refused: the first check it fails. */
  function Fault(checks: Checks, subject: Certificate, issuer: Certificate, now: int, at: nat): (v: Option<Verdict>)
    ensures v.None? <==> Vouches(checks, subject, issuer, now)
  {
    if !issuer.ca then Some(NotCa(at))
    else if !InDate(issuer, now) then Some(OutsideValidity(at))
    else if !Links(checks, subject, issuer) then Some(Broken(at))
    else None
  }

  /** A link that does not hold, by the first of what an issuer must be that this one is not. */
  ghost predicate Fails(checks: Checks, subject: Certificate, issuer: Certificate, now: int, v: Verdict) {
    match v
    case NotCa(_) => !issuer.ca
    case OutsideValidity(_) => issuer.ca && (now < issuer.notBefore || issuer.notAfter < now)
    case Broken(_) =>
      issuer.ca && issuer.notBefore <= now <= issuer.notAfter &&
      !(checks.issued(subject, issuer) && checks.signed(subject, issuer.key))
    case _ => false
  }

  /**
    * The walk accepts exactly the paths for server authentication, and otherwise names the lowest link that
    * does not hold and the first check it fails.
    */
  method VerifyChainToRoots(checks: Checks, certs: seq<Certificate>, roots: seq<Certificate>, now: int)
      returns (v: Verdict)
    ensures v.Trusted? <==> Accepts(checks, certs, roots, now)
    ensures v.Trusted? ==> v == Trusted(certs[0], |certs|)
    ensures v.NotCa? || v.OutsideValidity? || v.Broken? ==>
              0 < v.at < |certs| && LinkedTo(checks, certs, now, v.at) &&
              Fails(checks, certs[v.at - 1], certs[v.at], now, v)
    ensures v == NoCertificate <==> certs == []
    ensures v == NoRoots <==> certs != [] && roots == []
    ensures v == NotServerAuth <==> certs != [] && roots != [] && "1.3.6.1.5.5.7.3.1" !in certs[0].usages
    ensures v.NotAnchored? ==>
      certs != [] && v.at == |certs| - 1 && LinkedTo(checks, certs, now, |certs|) && !Rooted(checks, certs[|certs| - 1], roots)
  {
    if certs == [] { return NoCertificate; }
    PathByIndex(checks, certs, roots, now);
    if roots == [] {
      return NoRoots;
    }
    var leaf := certs[0];
    if SERVER_AUTH !in leaf.usages { return NotServerAuth; }
    var current := leaf;
    for i := 1 to |certs|
      invariant current == certs[i - 1] && LinkedTo(checks, certs, now, i)
    {
      var next := certs[i];
      var fault := Fault(checks, current, next, now, i);
      if fault.Some? { return fault.value; }
      current := next;
    }
    RootedIs(checks, current, roots);
    if !Anchored(checks, current, roots) { return NotAnchored(|certs| - 1); }
    return Trusted(leaf, |certs|);
  }
}

/** Rotation of the webhook's CA and server certificate: two CA secrets (the primary and `-new`), one
    server certificate secret and the trust bundle of the webhook configuration, driven by periodic
    checks.

    Time is in nanoseconds; certificates carry whole seconds. Each check uses one clock reading. A
    signature is verified when its issuer is in the pool and issuer and certificate are within their
    validity (path validation, section 6.1 of RFC 5280). */
module CertRotation {
  import opened Common

  const DAY: int := 24 * 3600 * SECOND
  const CA_VALIDITY: int := 10 * 365 * DAY
  const CERT_VALIDITY: int := 365 * DAY
  const RENEW_THRESHOLD: int := 30 * DAY
  const CA_RENEW_THRESHOLD: int := 365 * DAY

  /** A CA certificate, told apart by its serial number. */
  datatype Ca = Ca(serial: nat, notBefore: int, notAfter: int)

  datatype ServerCert = ServerCert(issuer: Ca, notBefore: int, notAfter: int)

  /** A secret: missing, present without usable contents, or holding a value. */
  datatype Slot<+T> = Absent | Garbled | Holds(value: T)

  datatype Bundle = Unset | Trusts(ca: Ca)

  datatype Cluster = Cluster(ca: Slot<Ca>, caNew: Slot<Ca>, server: Slot<ServerCert>, bundle: Bundle, nextSerial: nat)

  datatype Signing = NoCa | Signer(cluster: Cluster, ca: Ca)

  /** Time as an X.509 certificate stores it. */
  function Trunc(t: int): (r: int)
    ensures r <= t < r + SECOND
  {
    t - t % SECOND
  }

  // ---------- one check, as a function of the cluster ----------

  function NewCa(c: Cluster, now: int): Ca {
    Ca(c.nextSerial, Trunc(now), Trunc(now + CA_VALIDITY))
  }

  predicate Promotes(c: Cluster, now: int) {
    c.caNew.Holds? && c.ca.Holds? && now > c.ca.value.notAfter
  }

  predicate RenewsCa(c: Cluster, now: int) {
    c.caNew.Absent? && c.ca.Holds? && c.ca.value.notAfter < now + CA_RENEW_THRESHOLD
  }

  /** The CA to sign with, after creating, renewing or promoting one. */
  function ChooseCa(c: Cluster, now: int): Signing {
    if Promotes(c, now) then Signer(c.(ca := c.caNew, caNew := Absent), c.caNew.value)
    else if c.caNew.Holds? then Signer(c, c.caNew.value)
    else if RenewsCa(c, now) then
      Signer(c.(caNew := Holds(NewCa(c, now)), nextSerial := c.nextSerial + 1), NewCa(c, now))
    else match c.ca
      case Holds(ca) => Signer(c, ca)
      case Garbled => NoCa
      case Absent => Signer(c.(ca := Holds(NewCa(c, now)), nextSerial := c.nextSerial + 1), NewCa(c, now))
  }

  predicate ValidAt(notBefore: int, notAfter: int, t: int) { notBefore <= t <= notAfter }

  predicate Verifies(cert: ServerCert, pool: set<Ca>, now: int) {
    && cert.issuer in pool
    && ValidAt(cert.issuer.notBefore, cert.issuer.notAfter, now)
    && ValidAt(cert.notBefore, cert.notAfter, now)
  }

  /** The CAs that a server certificate may be signed by: the signer and the primary. */
  function Pool(c: Cluster, signer: Ca): set<Ca> {
    if c.ca.Holds? then {signer, c.ca.value} else {signer}
  }

  predicate ExpiresSoon(cert: ServerCert, now: int) { cert.notAfter < now + RENEW_THRESHOLD }

  predicate NeedsServerCert(c: Cluster, signer: Ca, now: int) {
    c.server.Holds? ==> ExpiresSoon(c.server.value, now) || !Verifies(c.server.value, Pool(c, signer), now)
  }

  function Issue(signer: Ca, now: int): ServerCert {
    ServerCert(signer, Trunc(now), Trunc(now + CERT_VALIDITY))
  }

  /** The check issues a new server certificate. */
  predicate Reissues(c: Cluster, now: int) {
    var s := ChooseCa(c, now);
    s.Signer? && NeedsServerCert(s.cluster, s.ca, now)
  }

  /** The cluster after one check; unchanged when no CA is usable. `patched` tells whether the patch of
      the bundle that follows a new certificate lands; if it fails, nobody tries again. */
  function CheckWith(c: Cluster, now: int, patched: bool): Cluster {
    match ChooseCa(c, now)
    case NoCa => c
    case Signer(c', ca) =>
      if NeedsServerCert(c', ca, now)
      then c'.(server := Holds(Issue(ca, now)), bundle := if patched then Trusts(ca) else c'.bundle)
      else c'
  }

  /** A check whose patch lands. */
  function Check(c: Cluster, now: int): Cluster { CheckWith(c, now, true) }

  // ---------- one check, from any cluster ----------

  /** Which CA signs: a readable new one; else one made now, if the primary is missing, or expires within
      a year while the new secret is missing; else the primary. Without any of them the check fails, and
      it fails exactly if the primary is unusable and the new one is not readable. */
  lemma SignerIs(c: Cluster, now: int)
    ensures ChooseCa(c, now).NoCa? <==> c.ca.Garbled? && !c.caNew.Holds?
    ensures c.caNew.Holds? ==> ChooseCa(c, now).ca == c.caNew.value
    ensures !c.caNew.Holds? && (c.ca.Absent? || (c.ca.Holds? && c.caNew.Absent? && ExpiresWithinYear(c.ca.value, now)))
            ==> var ca := ChooseCa(c, now).ca;
                ca.serial == c.nextSerial && ca.notBefore <= now && now + CA_VALIDITY - SECOND < ca.notAfter
    ensures c.ca.Holds? && (c.caNew.Garbled? || (c.caNew.Absent? && !ExpiresWithinYear(c.ca.value, now)))
            ==> ChooseCa(c, now) == Signer(c, c.ca.value)
  {
  }

  predicate ExpiresWithinYear(ca: Ca, now: int) { ca.notAfter < now + CA_RENEW_THRESHOLD }

  /** The new CA takes the primary's place exactly if the primary has expired. */
  lemma PromotedIff(c: Cluster, now: int)
    requires c.ca.Holds? && c.caNew.Holds?
    ensures var c' := Check(c, now);
            && (c'.ca == c.caNew && c'.caNew.Absent? <==> c.ca.value.notAfter < now)
            && (c.ca.value.notAfter >= now ==> c'.ca == c.ca && c'.caNew == c.caNew)
  {
  }

  /** A check repairs whatever it finds, as long as its signer is valid: the server certificate it leaves
      lasts another threshold and verifies, a missing or unusable one is issued anew under a bundle that
      trusts its issuer, and one that was good is left alone. */
  lemma CheckRepairs(c: Cluster, now: int)
    requires ChooseCa(c, now).Signer? && ValidAt(ChooseCa(c, now).ca.notBefore, ChooseCa(c, now).ca.notAfter, now)
    ensures var c', ca := Check(c, now), ChooseCa(c, now).ca;
            && c'.server.Holds? && c'.server.value.notAfter >= now + RENEW_THRESHOLD
            && (c'.server.value.issuer == ca || (c'.ca.Holds? && c'.server.value.issuer == c'.ca.value))
            && ValidAt(c'.server.value.issuer.notBefore, c'.server.value.issuer.notAfter, now)
            && ValidAt(c'.server.value.notBefore, c'.server.value.notAfter, now)
            && (!c.server.Holds? ==> c'.server.value.issuer == ca && c'.bundle == Trusts(ca))
            && (c'.server != c.server ==> c'.bundle == Trusts(c'.server.value.issuer))
            && (c.server.Holds? && c.server.value.notAfter >= now + RENEW_THRESHOLD
                && Verifies(c.server.value, Pool(c', ca), now)
                ==> c'.server == c.server && c'.bundle == c.bundle)
  {
  }

  // ---------- the manager ----------

  class Manager {
    var caSecret: Slot<Ca>
    var caSecretNew: Slot<Ca>
    var tlsSecret: Slot<ServerCert>
    var caBundle: Bundle
    var nextSerial: nat

    function State(): Cluster
      reads this
    {
      Cluster(caSecret, caSecretNew, tlsSecret, caBundle, nextSerial)
    }

    /** A manager in a namespace that holds none of its secrets yet. */
    constructor ()
      ensures State() == Fresh()
    {
      caSecret, caSecretNew, tlsSecret, caBundle, nextSerial := Absent, Absent, Absent, Unset, 0;
    }

    method GenerateCa(now: int) returns (ca: Ca)
      modifies this`nextSerial
      ensures ca == NewCa(old(State()), now) && nextSerial == old(nextSerial) + 1
    {
      ca := Ca(nextSerial, Trunc(now), Trunc(now + CA_VALIDITY));
      nextSerial := nextSerial + 1;
    }

    method EnsureCa(now: int) returns (ok: bool, ca: Ca)
      modifies this
      ensures ok <==> ChooseCa(old(State()), now).Signer?
      ensures ok ==> ChooseCa(old(State()), now) == Signer(State(), ca)
      ensures !ok ==> State() == old(State())
    {
      if caSecretNew.Holds? {
        ca := caSecretNew.value;
        if caSecret.Holds? && now > caSecret.value.notAfter {
          // the old CA has expired: the new secret becomes the primary one
          caSecret := caSecretNew;
          caSecretNew := Absent;
        }
        return true, ca;
      }
      if caSecret.Holds? {
        ca := caSecret.value;
        if ca.notAfter < now + CA_RENEW_THRESHOLD && caSecretNew.Absent? {
          ca := GenerateCa(now);
          caSecretNew := Holds(ca);
        }
        return true, ca;
      }
      if caSecret.Garbled? {
        return false, Ca(0, 0, 0);
      }
      ca := GenerateCa(now);
      caSecret := Holds(ca);
      return true, ca;
    }

    method NeedsServerCertGeneration(ca: Ca, now: int) returns (needed: bool)
      ensures needed <==> NeedsServerCert(State(), ca, now)
    {
      if !tlsSecret.Holds? {
        return true;
      }
      var cert := tlsSecret.value;
      if cert.notAfter < now + RENEW_THRESHOLD {
        return true;
      }
      var roots := {ca};
      if caSecret.Holds? && caSecret.value != ca {
        roots := roots + {caSecret.value};
      }
      return !Verifies(cert, roots, now);
    }

    method EnsureCertificate(now: int, patched: bool) returns (ok: bool)
      modifies this
      ensures State() == CheckWith(old(State()), now, patched)
      ensures ok <==> ChooseCa(old(State()), now).Signer?
    {
      var ca;
      ok, ca := EnsureCa(now);
      if !ok {
        return;
      }
      var needed := NeedsServerCertGeneration(ca, now);
      if needed {
        tlsSecret := Holds(Issue(ca, now));
        if patched {
          caBundle := Trusts(ca);
        }
      }
    }

    /** Start followed by the renewal loop: one check per clock reading. */
    method Renew(times: seq<int>, patched: seq<bool>)
      requires |patched| == |times|
      modifies this
      ensures State() == CheckedWith(old(State()), times, patched)
    {
      var k := 0;
      while k < |times|
        invariant 0 <= k <= |times|
        invariant State() == CheckedWith(old(State()), times[..k], patched[..k])
      {
        assert times[..k + 1][..k] == times[..k] && patched[..k + 1][..k] == patched[..k];
        var _ := EnsureCertificate(times[k], patched[k]);
        k := k + 1;
      }
      assert times[..k] == times && patched[..k] == patched;
    }
  }

  // ---------- runs ----------

  function Fresh(): Cluster { Cluster(Absent, Absent, Absent, Unset, 0) }

  /** The cluster after checks at the given times, whose patches land or not. */
  function CheckedWith(c: Cluster, times: seq<int>, patched: seq<bool>): Cluster
    requires |patched| == |times|
  {
    if |times| == 0 then c
    else
      var k := |times| - 1;
      CheckWith(CheckedWith(c, times[..k], patched[..k]), times[k], patched[k])
  }

  /** The cluster after checks at the given times, whose patches all land. */
  function Checked(c: Cluster, times: seq<int>): Cluster {
    if |times| == 0 then c else Check(Checked(c, times[..|times| - 1]), times[|times| - 1])
  }

  /** The same, starting from a fresh install. */
  function After(times: seq<int>): Cluster { Checked(Fresh(), times) }

  /** Consecutive checks are at most `gap` apart. */
  predicate Spaced(times: seq<int>, gap: int) {
    forall k | 0 < k < |times| :: times[k - 1] <= times[k] <= times[k - 1] + gap
  }

  /** At time `t` a client that trusts the bundle accepts the stored server certificate. */
  predicate Trusted(c: Cluster, t: int) {
    && c.server.Holds? && c.bundle == Trusts(c.server.value.issuer)
    && Verifies(c.server.value, {c.bundle.ca}, t)
  }

  /** What holds right after the check at time `t`. */
  ghost predicate Sound(c: Cluster, t: int) {
    && c.server.Holds? && c.ca.Holds? && c.bundle == Trusts(c.server.value.issuer)
    && CertSound(c.server.value, t)
    && CaSound(c.ca.value, c.nextSerial, t)
    && match c.caNew
       case Absent => c.server.value.issuer == c.ca.value && c.ca.value.notAfter >= t + CA_RENEW_THRESHOLD
       case Garbled => false
       case Holds(young) =>
         && (c.server.value.issuer == c.ca.value || c.server.value.issuer == young)
         && CaSound(young, c.nextSerial, t)
         && c.ca.value.notAfter >= t
         && young.notAfter >= c.ca.value.notAfter + CERT_VALIDITY + RENEW_THRESHOLD
  }

  /** Good for another threshold, and never outliving its issuer. */
  predicate CertSound(cert: ServerCert, t: int) {
    && cert.notBefore <= t && cert.issuer.notBefore <= t
    && t + RENEW_THRESHOLD <= cert.notAfter <= cert.issuer.notAfter
  }

  predicate CaSound(ca: Ca, nextSerial: nat, t: int) { ca.serial < nextSerial && ca.notBefore <= t }

  // ---------- what every check keeps ----------

  /** A check made at most one threshold after the last one finds a CA that outlives the certificates
      it is about to sign, keeps a certificate that is not about to expire, and promotes the new CA only
      when the server certificate is already signed by it. */
  lemma CheckIsSmooth(c: Cluster, t: int, now: int)
    requires Sound(c, t) && t <= now <= t + RENEW_THRESHOLD
    ensures ChooseCa(c, now).Signer?
    ensures var s := ChooseCa(c, now);
            && s.ca.notAfter >= now + CERT_VALIDITY && CaSound(s.ca, s.cluster.nextSerial, now)
            && s.cluster.server == c.server
            && (NeedsServerCert(s.cluster, s.ca, now) <==> ExpiresSoon(c.server.value, now))
    ensures Promotes(c, now) ==> c.server.value.issuer == c.caNew.value
  {
  }

  lemma IssueIsSound(ca: Ca, now: int)
    requires ca.notAfter >= now + CERT_VALIDITY && ca.notBefore <= now
    ensures CertSound(Issue(ca, now), now)
  {
  }

  lemma CheckKeepsSound(c: Cluster, t: int, now: int)
    requires Sound(c, t) && t <= now <= t + RENEW_THRESHOLD
    ensures Sound(Check(c, now), now)
  {
    CheckIsSmooth(c, t, now);
    IssueIsSound(ChooseCa(c, now).ca, now);
  }

  lemma FirstCheckIsSound(now: int)
    ensures Sound(Check(Fresh(), now), now)
  {
    var ca := NewCa(Fresh(), now);
    IssueIsSound(ca, now);
  }

  lemma {:induction false} RunIsSound(times: seq<int>)
    requires |times| > 0 && Spaced(times, RENEW_THRESHOLD)
    ensures Sound(After(times), times[|times| - 1])
  {
    var k := |times| - 1;
    var before := times[..k];
    if k == 0 {
      assert After(before) == Fresh();
      FirstCheckIsSound(times[0]);
    } else {
      RunIsSound(before);
      CheckKeepsSound(After(before), before[k - 1], times[k]);
    }
  }

  /** Certificate continuity: after every sequence of checks at most 30 days apart, the stored server
      certificate is accepted by clients at every moment until the next check is due, the bundle is its
      issuer, and it does not outlive that issuer. */
  lemma Continuity(times: seq<int>, t: int)
    requires |times| > 0 && Spaced(times, RENEW_THRESHOLD)
    requires times[|times| - 1] <= t <= times[|times| - 1] + RENEW_THRESHOLD
    ensures Trusted(After(times), t)
    ensures After(times).server.value.notAfter <= After(times).server.value.issuer.notAfter
  {
    RunIsSound(times);
  }

  /** Non-disruptive rotation: at the next check a promotion finds the server certificate already signed
      by the promoted CA, the certificate is replaced only because it expires soon, never because its
      signature is not trusted, and the signing CA has a full certificate lifetime left. */
  lemma NonDisruptive(times: seq<int>, now: int)
    requires |times| > 0 && Spaced(times + [now], RENEW_THRESHOLD)
    ensures var c := After(times);
            && ChooseCa(c, now).Signer?
            && ChooseCa(c, now).ca.notAfter >= now + CERT_VALIDITY
            && (Promotes(c, now) ==> c.server.value.issuer == c.caNew.value)
            && (Check(c, now).server != c.server ==> ExpiresSoon(c.server.value, now))
            && Verifies(c.server.value, Pool(ChooseCa(c, now).cluster, ChooseCa(c, now).ca), now)
  {
    var k := |times|;
    assert (times + [now])[k - 1] == times[k - 1] && (times + [now])[k] == now;
    assert Spaced(times, RENEW_THRESHOLD) by {
      forall j | 0 < j < |times|
        ensures times[j - 1] <= times[j] <= times[j - 1] + RENEW_THRESHOLD
      {
        assert (times + [now])[j - 1] == times[j - 1] && (times + [now])[j] == times[j];
      }
    }
    RunIsSound(times);
    CheckIsSmooth(After(times), times[k - 1], now);
    StillVerifies(After(times), times[k - 1], now);
  }

  lemma StillVerifies(c: Cluster, t: int, now: int)
    requires Sound(c, t) && t <= now <= t + RENEW_THRESHOLD
    ensures ChooseCa(c, now).Signer?
    ensures Verifies(c.server.value, Pool(ChooseCa(c, now).cluster, ChooseCa(c, now).ca), now)
  {
  }

  // ---------- patches that fail ----------

  /** Failed patches affect nothing but the bundle. */
  lemma {:induction false} OnlyTheBundle(c: Cluster, times: seq<int>, patched: seq<bool>)
    requires |patched| == |times|
    ensures CheckedWith(c, times, patched).(bundle := Unset) == Checked(c, times).(bundle := Unset)
    ensures (forall k | 0 <= k < |times| :: patched[k]) ==> CheckedWith(c, times, patched) == Checked(c, times)
  {
    if |times| > 0 {
      var k := |times| - 1;
      OnlyTheBundle(c, times[..k], patched[..k]);
      SameCheck(CheckedWith(c, times[..k], patched[..k]), Checked(c, times[..k]), times[k], patched[k]);
    }
  }

  lemma SameCheck(c: Cluster, d: Cluster, now: int, patched: bool)
    requires c.(bundle := Unset) == d.(bundle := Unset)
    ensures CheckWith(c, now, patched).(bundle := Unset) == Check(d, now).(bundle := Unset)
    ensures Reissues(c, now) <==> Reissues(d, now)
  {
  }

  /** Check `j` issued a certificate signed by `ca` and its patch of the bundle landed. */
  ghost predicate LandedAt(times: seq<int>, patched: seq<bool>, j: nat, ca: Ca)
    requires |patched| == |times| && j < |times|
  {
    var c := CheckedWith(Fresh(), times[..j], patched[..j]);
    patched[j] && Reissues(c, times[j]) && ChooseCa(c, times[j]).ca == ca
  }

  ghost predicate Landed(times: seq<int>, patched: seq<bool>, ca: Ca)
    requires |patched| == |times|
  {
    exists j | 0 <= j < |times| :: LandedAt(times, patched, j, ca)
  }

  lemma LandedStep(times: seq<int>, patched: seq<bool>, ca: Ca)
    requires |patched| == |times| > 0
    ensures var k := |times| - 1;
            Landed(times, patched, ca) <==> Landed(times[..k], patched[..k], ca) || LandedAt(times, patched, k, ca)
  {
    var k := |times| - 1;
    forall j | 0 <= j < k
      ensures LandedAt(times, patched, j, ca) <==> LandedAt(times[..k], patched[..k], j, ca)
    {
      assert times[..k][..j] == times[..j] && patched[..k][..j] == patched[..j];
    }
    if Landed(times[..k], patched[..k], ca) {
      var j :| 0 <= j < k && LandedAt(times[..k], patched[..k], j, ca);
      assert LandedAt(times, patched, j, ca);
    }
  }

  /** Serial numbers grow: no CA is younger than the signer of the server certificate by its serial, and
      the new CA is younger than the primary one. */
  predicate Serials(c: Cluster) {
    && (c.ca.Holds? ==> c.ca.value.serial < c.nextSerial)
    && (c.caNew.Holds? ==> c.ca.Holds? && c.ca.value.serial < c.caNew.value.serial < c.nextSerial)
  }

  /** The next signer is the issuer, or younger than it. */
  lemma SignerGrows(c: Cluster, t: int, now: int, patched: bool)
    requires Sound(c.(bundle := Trusts(if c.server.Holds? then c.server.value.issuer else Ca(0, 0, 0))), t)
    requires Serials(c) && t <= now <= t + RENEW_THRESHOLD
    ensures Serials(CheckWith(c, now, patched)) && ChooseCa(c, now).Signer?
    ensures var s, i := ChooseCa(c, now).ca, c.server.value.issuer;
            i.serial < c.nextSerial && (s == i || s.serial > i.serial)
    ensures CheckWith(c, now, patched).server.value.issuer
            == if Reissues(c, now) then ChooseCa(c, now).ca else c.server.value.issuer
  {
  }

  /** What the bundle says about the patches so far. */
  ghost predicate BundleTells(times: seq<int>, patched: seq<bool>)
    requires |patched| == |times|
  {
    var c := CheckedWith(Fresh(), times, patched);
    && c.server.Holds? && Serials(c)
    && (c.bundle.Trusts? ==> Landed(times, patched, c.bundle.ca))
    && (Landed(times, patched, c.server.value.issuer) ==> c.bundle == Trusts(c.server.value.issuer))
    && (forall ca | Landed(times, patched, ca) ::
          ca == c.server.value.issuer || ca.serial < c.server.value.issuer.serial)
  }

  lemma FirstBundle(now: int, lands: bool)
    ensures BundleTells([now], [lands])
  {
    assert [now][..0] == [] && [lands][..0] == [];
    var c := CheckWith(Fresh(), now, lands);
    forall ca
      ensures Landed([now], [lands], ca) <==> lands && ca == NewCa(Fresh(), now)
    {
      LandedStep([now], [lands], ca);
      assert !Landed([now][..0], [lands][..0], ca);
    }
  }

  lemma NextBundle(times: seq<int>, patched: seq<bool>)
    requires |patched| == |times| > 1 && Spaced(times, RENEW_THRESHOLD)
    requires var k := |times| - 1; BundleTells(times[..k], patched[..k])
    ensures BundleTells(times, patched)
  {
    var k := |times| - 1;
    var c := CheckedWith(Fresh(), times[..k], patched[..k]);
    RunIsSound(times[..k]);
    OnlyTheBundle(Fresh(), times[..k], patched[..k]);
    assert c.(bundle := Trusts(c.server.value.issuer)) == After(times[..k]);
    SignerGrows(c, times[k - 1], times[k], patched[k]);
    forall ca
      ensures Landed(times, patched, ca)
              <==> Landed(times[..k], patched[..k], ca)
                   || (patched[k] && Reissues(c, times[k]) && ChooseCa(c, times[k]).ca == ca)
    {
      LandedStep(times, patched, ca);
    }
  }

  lemma {:induction false} BundleRun(times: seq<int>, patched: seq<bool>)
    requires |patched| == |times| > 0 && Spaced(times, RENEW_THRESHOLD)
    ensures BundleTells(times, patched)
    decreases |times|
  {
    var k := |times| - 1;
    if k == 0 {
      assert times == [times[0]] && patched == [patched[0]];
      FirstBundle(times[0], patched[0]);
    } else {
      BundleRun(times[..k], patched[..k]);
      NextBundle(times, patched);
    }
  }

  /** Continuity with failing patches: at every moment until the next check is due, clients accept the
      server certificate if and only if some check that issued a certificate under its issuer had its
      patch of the bundle land. */
  lemma ContinuityIff(times: seq<int>, patched: seq<bool>, t: int)
    requires |patched| == |times| > 0 && Spaced(times, RENEW_THRESHOLD)
    requires times[|times| - 1] <= t <= times[|times| - 1] + RENEW_THRESHOLD
    ensures var c := CheckedWith(Fresh(), times, patched);
            c.server.Holds? && (Trusted(c, t) <==> Landed(times, patched, c.server.value.issuer))
  {
    var c := CheckedWith(Fresh(), times, patched);
    BundleRun(times, patched);
    OnlyTheBundle(Fresh(), times, patched);
    Continuity(times, t);
  }

  /** A first check whose patch fails leaves clients unserved, and the next check does not repeat it. */
  lemma FailedPatchIsNotRepeated(now: int, later: int)
    requires now <= later <= now + RENEW_THRESHOLD
    ensures !Trusted(CheckedWith(Fresh(), [now, later], [false, true]), later)
  {
    var times, patched := [now, later], [false, true];
    assert times[..1] == [now] && patched[..1] == [false] && [now][..0] == [] && [false][..0] == [];
    assert CheckedWith(Fresh(), [now], [false]) == CheckWith(Fresh(), now, false);
  }

  // ---------- thirty days is the limit ----------

  /** No gap between checks may exceed `gap`, and clients are served at every moment in between. */
  ghost predicate GapIsSafe(gap: int) {
    forall times: seq<int>, t: int ::
      |times| > 0 && Spaced(times, gap) && times[|times| - 1] <= t <= times[|times| - 1] + gap
      ==> Trusted(After(times), t)
  }

  /** Checks during the first 335 days find nothing to do. */
  lemma {:induction false} IdleChecks(times: seq<int>)
    requires |times| > 0 && times[0] == 0
    requires forall k | 0 <= k < |times| :: 0 <= times[k] <= CERT_VALIDITY - RENEW_THRESHOLD
    ensures After(times) == After([0])
  {
    var k := |times| - 1;
    if k == 0 {
      assert times == [0];
    } else {
      IdleChecks(times[..k]);
      var c := After([0]);
      assert [0][..0] == [];
      assert After(times) == Check(c, times[k]);
    }
  }

  /** A check every 30 days, up to the last moment at which the first certificate is not renewed. */
  lemma LateChecks() returns (times: seq<int>)
    ensures |times| == 13 && times[0] == 0 && times[12] == CERT_VALIDITY - RENEW_THRESHOLD
    ensures Spaced(times, RENEW_THRESHOLD)
    ensures forall k | 0 <= k < |times| :: 0 <= times[k] <= CERT_VALIDITY - RENEW_THRESHOLD
  {
    var last := CERT_VALIDITY - RENEW_THRESHOLD;
    times := seq(13, (k: int) => if 0 <= k < 12 then k * RENEW_THRESHOLD else last);
  }

  lemma LongGapFails(gap: int)
    requires gap > RENEW_THRESHOLD
    ensures !GapIsSafe(gap)
  {
    var times := LateChecks();
    assert Spaced(times, gap);
    IdleChecks(times);
    assert [0][..0] == [];
    assert !Trusted(After(times), CERT_VALIDITY + 1);
  }

  /** The checks may be up to 30 days apart, and not a nanosecond more. */
  lemma SafeGapIff(gap: nat)
    ensures GapIsSafe(gap) <==> gap <= RENEW_THRESHOLD
  {
    if gap <= RENEW_THRESHOLD {
      forall times: seq<int>, t: int
        | |times| > 0 && Spaced(times, gap) && times[|times| - 1] <= t <= times[|times| - 1] + gap
        ensures Trusted(After(times), t)
      {
        Continuity(times, t);
      }
    } else {
      LongGapFails(gap);
    }
  }
}

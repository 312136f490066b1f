/** SSL certificates: a pre-shared one is looked up, one from a secret is managed. */
module SslCerts {
  import opened Prelude
  import opened Names
  import opened Ingress
  import C = Cloud

  function OwnLink(namer: Namer): C.Link {
    C.SelfLink(C.SslCertificates, namer.Name(SslCert))
  }

  function Desired(lbName: string, secret: TlsSecret): C.SslCertificate {
    C.SslCertificate("SSL cert for kubernetes multicluster loadbalancer " + lbName, secret.cert, secret.key)
  }

  /** The private key is write only, so only the certificate is compared. */
  predicate Matches(want: C.SslCertificate, existing: C.SslCertificate) {
    existing.certificate == want.certificate
  }

  /** Ensuring a certificate from a secret. An update deletes and recreates, so
      a failure in between leaves no certificate; a strict cloud refuses the
      deletion while a proxy uses it. */
  ghost predicate Outcome(t: C.Table<C.SslCertificate>, t': C.Table<C.SslCertificate>, name: string,
                          want: C.SslCertificate,
                          inUse: bool, force: bool, err: Err, reliable: bool) {
    && (t' == t || C.Wrote(t, t', name, want) || (name in t && force && t' == t - {name}))
    && (name in t && (!force || inUse || Matches(want, t[name].spec)) ==> t' == t)
    && (err == Nil ==> name in t' && Matches(want, t'[name].spec))
    && (reliable ==> (err == Nil <==> name !in t || Matches(want, t[name].spec) || (force && !inUse)))
  }

  class Syncer {
    const namer: Namer
    const cloud: C.Cloud

    constructor (namer: Namer, cloud: C.Cloud)
      ensures this.namer == namer && this.cloud == cloud
    {
      this.namer, this.cloud := namer, cloud;
    }

    /** ensureSecretSSLCert. */
    method EnsureSecretCert(lbName: string, secret: Option<TlsSecret>, force: bool) returns (link: C.Link, err: Err)
      modifies cloud`sslCertificates
      ensures secret.None? ==> err != Nil && cloud.sslCertificates == old(cloud.sslCertificates)
      ensures secret.Some? ==>
                Outcome(old(cloud.sslCertificates), cloud.sslCertificates, namer.Name(SslCert),
                        Desired(lbName, secret.value),
                        cloud.strict &&
                            C.SslCertificateInUse(cloud.httpsProxies, namer.Name(SslCert)), force, err, cloud.reliable)
      ensures link == if err == Nil then OwnLink(namer) else C.NoLink
    {
      link := C.NoLink;
      if secret.None? {
        return C.NoLink, Other;
      }
      var want := Desired(lbName, secret.value);
      var name := namer.Name(SslCert);
      var existing, getErr := C.Fetch(cloud.sslCertificates, name, cloud.reliable);
      if getErr == Nil {
        if Matches(want, existing.value.spec) {
          return OwnLink(namer), Nil;
        }
        if !force {
          return C.NoLink, Other;
        }
        err := cloud.DeleteSslCertificate(name);
        if err != Nil {
          return C.NoLink, Other;
        }
      }
      cloud.sslCertificates, err := C.Insert(cloud.sslCertificates, name, want, cloud.reliable);
      if err != Nil {
        return;
      }
      existing, err := C.Fetch(cloud.sslCertificates, name, cloud.reliable);
      if err == Nil {
        link := OwnLink(namer);
      }
    }

    /** EnsureSSLCert. With a pre-shared certificate nothing is written. */
    method EnsureSslCert(lbName: string, ing: Spec, secret: Option<TlsSecret>, force: bool) returns (link: C.Link,
        err: Err)
      modifies cloud`sslCertificates
      ensures ing.preSharedCert != "" ==>
                && cloud.sslCertificates == old(cloud.sslCertificates)
                && (err == Nil ==> ing.preSharedCert in cloud.sslCertificates)
                && (cloud.reliable && ing.preSharedCert in cloud.sslCertificates ==> err == Nil)
                && link == if err == Nil then C.SelfLink(C.SslCertificates, ing.preSharedCert) else C.NoLink
      ensures ing.preSharedCert == "" ==>
                && (secret.None? ==> err != Nil && cloud.sslCertificates == old(cloud.sslCertificates))
                && (secret.Some? ==>
                      Outcome(old(cloud.sslCertificates), cloud.sslCertificates, namer.Name(SslCert),
                              Desired(lbName, secret.value),
                              cloud.strict &&
                                  C.SslCertificateInUse(cloud.httpsProxies,
                                                        namer.Name(SslCert)), force, err, cloud.reliable))
                && link == if err == Nil then OwnLink(namer) else C.NoLink
    {
      if ing.preSharedCert != "" {
        var cert, getErr := C.Fetch(cloud.sslCertificates, ing.preSharedCert, cloud.reliable);
        err := getErr;
        link := if err == Nil then C.SelfLink(C.SslCertificates, ing.preSharedCert) else C.NoLink;
      } else {
        link, err := EnsureSecretCert(lbName, secret, force);
      }
    }

    method DeleteSslCert() returns (err: Err)
      modifies cloud`sslCertificates
      ensures C.Purged(old(cloud.sslCertificates), cloud.sslCertificates, namer.Name(SslCert),
                       cloud.strict &&
                           C.SslCertificateInUse(cloud.httpsProxies, namer.Name(SslCert)), err, cloud.reliable)
    {
      err := cloud.DeleteSslCertificate(namer.Name(SslCert));
      if err == NotFound {
        err := Nil;
      }
    }
  }
}

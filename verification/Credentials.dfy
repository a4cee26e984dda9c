/**
  What the certificates and kubeconfigs lxdk has made say. Their real encodings
  are not modelled: a file holds its fields packed into one text.
 */
module Credentials {
  import opened Text
  import opened Wrappers
  import opened Packs

  /** A certificate: whose it is, for which hosts, the certificate of who issued it, and the key it belongs to. */
  datatype Certificate = Certificate(cn: string, org: string, hosts: string, issuer: string, key: string)

  function PrintCert(x: Certificate): string {
    Pack([x.cn, x.org, x.hosts, x.issuer, x.key])
  }

  /** An authority issues its own certificate. */
  function PrintAuthority(cn: string, key: string): string {
    Pack([cn, key])
  }

  /** The text of a certificate tells all of it. */
  lemma CertTells(x: Certificate, y: Certificate)
    requires PrintCert(x) == PrintCert(y)
    ensures x == y
  {
    UnpackBack([x.cn, x.org, x.hosts, x.issuer, x.key]);
    UnpackBack([y.cn, y.org, y.hosts, y.issuer, y.key]);
    var a, b := Unpack(PrintCert(x)), Unpack(PrintCert(y));
    assert a[0] == b[0] && a[1] == b[1] && a[2] == b[2] && a[3] == b[3] && a[4] == b[4];
  }

  /**
    A kubeconfig with the cluster "lxdk", one user and the context "default":
    the cluster's server and authority, the user's name, certificate and key,
    the user of the context, and the current context.
   */
  datatype Kubeconfig = Kubeconfig(server: string, ca: string, user: string, cert: string, key: string,
                                   context: string, current: string)

  const EMPTY_CONFIG := Kubeconfig("", "", "", "", "", "", "")

  function PrintConfig(k: Kubeconfig): string {
    Pack([k.server, k.ca, k.user, k.cert, k.key, k.context, k.current])
  }

  function ReadConfig(text: string): Option<Kubeconfig> {
    var f := Unpack(text);
    if |f| == 7 then Some(Kubeconfig(f[0], f[1], f[2], f[3], f[4], f[5], f[6])) else None
  }

  /** Reading a printed kubeconfig gives it back. */
  lemma ConfigReadsBack(k: Kubeconfig)
    ensures ReadConfig(PrintConfig(k)) == Some(k)
  {
    UnpackBack([k.server, k.ca, k.user, k.cert, k.key, k.context, k.current]);
  }
}

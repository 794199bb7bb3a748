/** The loopback reference a package runtime reports. */
module ConnectionRef {
  import opened Options
  import opened Decimals

  const PREFIX := "cyrene-http-v1://127.0.0.1:"
  const CONTROL_PREFIX := "http://127.0.0.1:"

  /** The one accepted spelling of a port. */
  function Reference(port: nat): string {
    PREFIX + Print(port)
  }

  /** `control_url_from_connection_ref`: split off the port, check its range, and compare with the
      canonical spelling. */
  function ControlUrl(ref: string): Option<string> {
    if !(PREFIX <= ref) then None
    else
      match Read(ref[|PREFIX|..])
      case None => None
      case Some(port) =>
        if 1 <= port <= 65535 && ref == Reference(port) then Some(CONTROL_PREFIX + Print(port)) else None
  }

  /** Accepted references are exactly the canonical prints of the ports 1..65535, each of one port
      only, and the control URL names that port. */
  lemma AcceptedExactly(ref: string)
    ensures ControlUrl(ref).Some? <==> exists port: nat :: 1 <= port <= 65535 && ref == Reference(port)
    ensures forall port: nat | 1 <= port <= 65535 && ref == Reference(port) :: ControlUrl(ref) == Some(CONTROL_PREFIX + Print(port))
    ensures forall p: nat, q: nat | ref == Reference(p) && ref == Reference(q) :: p == q
  {
    forall port: nat | ref == Reference(port)
      ensures PREFIX <= ref && Read(ref[|PREFIX|..]) == Some(port)
    {
      assert ref[|PREFIX|..] == Print(port);
      ReadPrint(port);
    }
  }

  /** Two references with the same control URL are the same reference. */
  lemma ControlUrlInjective(a: string, b: string)
    requires ControlUrl(a).Some? && ControlUrl(a) == ControlUrl(b)
    ensures a == b
  {
    AcceptedExactly(a);
    AcceptedExactly(b);
    var p: nat :| 1 <= p <= 65535 && a == Reference(p);
    var q: nat :| 1 <= q <= 65535 && b == Reference(q);
    assert (CONTROL_PREFIX + Print(p))[|CONTROL_PREFIX|..] == Print(p);
    assert (CONTROL_PREFIX + Print(q))[|CONTROL_PREFIX|..] == Print(q);
    PrintInjective(p, q);
  }
}

/** How a host splits the configured hosts into itself and its peers, and the two quorum numbers that
    are derived from them independently. */
module Startup {
  import opened Types

  /** Whether `name` occurs in `text`. */
  predicate Contains(text: string, name: string) {
    name <= text || (text != [] && Contains(text[1..], name))
  }

  lemma {:induction false} ContainsExactly(text: string, name: string)
    ensures Contains(text, name) <==> exists before: string, after: string :: text == before + name + after
  {
    if name <= text {
      assert text == [] + name + text[|name|..];
    } else if text == [] {
    } else {
      ContainsExactly(text[1..], name);
      if before: string, after: string :| text[1..] == before + name + after {
        assert text == ([text[0]] + before) + name + after;
      }
      if before: string, after: string :| text == before + name + after {
        assert before != [];
        assert text[1..] == before[1..] + name + after;
      }
    }
  }

  function Peers(hosts: seq<Addr>, name: string): seq<Addr>
    decreases |hosts|
  {
    if hosts == [] then []
    else Peers(hosts[..|hosts| - 1], name) + if Contains(hosts[|hosts| - 1], name) then [] else [hosts[|hosts| - 1]]
  }

  function Matches(hosts: seq<Addr>, name: string): nat
    decreases |hosts|
  {
    if hosts == [] then 0
    else Matches(hosts[..|hosts| - 1], name) + if Contains(hosts[|hosts| - 1], name) then 1 else 0
  }

  /** The loop of `start_cluster`: every host whose address does not contain the own hostname becomes a
      client, and the last one that does becomes the own address. */
  method SplitHosts(hosts: seq<Addr>, name: string) returns (clients: seq<Addr>, self: Addr)
    ensures clients == Peers(hosts, name)
    ensures if Matches(hosts, name) == 0 then self == ""
            else exists k :: 0 <= k < |hosts| && self == hosts[k] && Contains(hosts[k], name)
                             && forall j :: k < j < |hosts| ==> !Contains(hosts[j], name)
  {
    clients, self := [], "";
    for i := 0 to |hosts|
      invariant clients == Peers(hosts[..i], name)
      invariant if Matches(hosts[..i], name) == 0 then self == ""
                else exists k :: 0 <= k < i && self == hosts[k] && Contains(hosts[k], name)
                                 && forall j :: k < j < i ==> !Contains(hosts[j], name)
    {
      assert hosts[..i + 1][..i] == hosts[..i];
      if !Contains(hosts[i], name) {
        clients := clients + [hosts[i]];
      } else {
        self := hosts[i];
      }
    }
    assert hosts[..|hosts|] == hosts;
  }

  /** Every configured host is a peer or a match. */
  lemma {:induction false} PeersAndMatches(hosts: seq<Addr>, name: string)
    ensures |Peers(hosts, name)| + Matches(hosts, name) == |hosts|
    ensures forall h :: h in Peers(hosts, name) <==> h in hosts && !Contains(h, name)
    decreases |hosts|
  {
    if hosts == [] {
    } else {
      PeersAndMatches(hosts[..|hosts| - 1], name);
      assert hosts == hosts[..|hosts| - 1] + [hosts[|hosts| - 1]];
    }
  }

  /** The static number of acks that a quorum write waits for, an 8-bit number. */
  function StaticQuorum(hosts: seq<Addr>): nat {
    (|hosts| / 2) % 256
  }

  /** The number of connected hosts that the quorum handler asks for. */
  function HandlerQuorum(clients: nat): nat {
    (clients + 1) / 2
  }

  lemma AgreeIff(n: nat, m: nat)
    requires m <= n
    ensures (n / 2) % 256 == (n - m + 1) / 2 <==> (m - n % 2) / 2 == 256 * (n / 512)
  {
    var h, p := n / 2, (m - n % 2) / 2;
    assert h % 256 == h - 256 * (n / 512);
    assert (n - m + 1) / 2 == h - p;
  }

  /** The two numbers agree exactly if the hosts that the client list misses, beyond the host itself, make up
      for what the 8-bit number wraps. */
  lemma QuorumsAgreeIff(hosts: seq<Addr>, name: string)
    ensures StaticQuorum(hosts) == HandlerQuorum(|Peers(hosts, name)|)
            <==> (Matches(hosts, name) - |hosts| % 2) / 2 == 256 * (|hosts| / 512)
  {
    PeersAndMatches(hosts, name);
    AgreeIff(|hosts|, Matches(hosts, name));
  }

  /** Below 512 hosts, and if some address contains the hostname, that is: one address does, or two do and the
      number of hosts is odd. */
  lemma SmallQuorumsAgreeIff(hosts: seq<Addr>, name: string)
    requires Matches(hosts, name) >= 1 && |hosts| < 512
    ensures StaticQuorum(hosts) == HandlerQuorum(|Peers(hosts, name)|)
            <==> Matches(hosts, name) == 1 || (Matches(hosts, name) == 2 && |hosts| % 2 == 1)
  {
    PeersAndMatches(hosts, name);
  }

  /** A quorum write that is acked stands for more than half of the cluster exactly below 512 hosts, and a healthy
      handler does exactly if at most one address contains the hostname, or two do and the number is odd. */
  lemma QuorumIsMajorityIff(hosts: seq<Addr>, name: string)
    ensures 2 * (StaticQuorum(hosts) + 1) > |hosts| <==> |hosts| < 512
    ensures 2 * (HandlerQuorum(|Peers(hosts, name)|) + 1) > |hosts|
            <==> Matches(hosts, name) <= 1 || (Matches(hosts, name) == 2 && |hosts| % 2 == 1)
  {
    PeersAndMatches(hosts, name);
  }

  lemma StartsWith(text: string, name: string)
    requires name <= text
    ensures Contains(text, name)
  { }

  /** For instance, two addresses with the hostname in a cluster of four. */
  lemma TwoMatchesOfFour()
    ensures var hosts := ["a1", "a2", "b", "c"];
            StaticQuorum(hosts) == 2 && HandlerQuorum(|Peers(hosts, "a")|) == 1
  {
    assert !Contains("b", "a") && !Contains("c", "a") && Contains("a1", "a") && Contains("a2", "a") by {
      assert "b"[1..] == "" && "c"[1..] == "" && "a"[0] != "b"[0] && "a"[0] != "c"[0];
      StartsWith("a1", "a");
      StartsWith("a2", "a");
    }
    assert ["a1"][..0] == [] && ["a1", "a2"][..1] == ["a1"] && ["a1", "a2", "b"][..2] == ["a1", "a2"];
    assert ["a1", "a2", "b", "c"][..3] == ["a1", "a2", "b"];
    assert Peers(["a1"], "a") == [] && Peers(["a1", "a2"], "a") == [];
    assert Peers(["a1", "a2", "b"], "a") == ["b"];
  }
}

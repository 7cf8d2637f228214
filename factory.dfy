/** The probe factory: `NewProbes` turns the six `Enabled` flags of a
    configuration snapshot into the ordered list of probe instances, and wires
    each instance to the collaborators it needs (one or both service clients,
    a user credential, the shared report channel).

    The service clients, the user credentials and the report channel are only
    passed through, so a probe instance is described by its kind and by WHICH
    collaborators it was handed. */
module Factory {
  import opened Errors

  datatype Kind = Broadcast | ChannelJoin | Ping | Search | Login | APIPing

  /** The two service clients `c1`, `c2` handed to `NewProbes`. */
  datatype ClientSlot = Client1 | Client2

  /** The two credential records `cfg.UserA`, `cfg.UserB` of the configuration. */
  datatype UserSlot = UserA | UserB

  /** One probe instance: its kind, the clients passed to its constructor (in
      argument order), the user it logs in as, and whether its ReportChannel
      field was set to the shared report channel. */
  datatype ProbeDesc = ProbeDesc(kind: Kind, clients: seq<ClientSlot>, user: Option<UserSlot>, hasReportChannel: bool)

  /** The `Enabled` flag of each probe section of the configuration. */
  datatype Config = Config(broadcast: bool, channelJoin: bool, ping: bool, search: bool, login: bool, apiPing: bool)

  /** The order in which the configuration declares the probe kinds. */
  function Declared(): seq<Kind>
  {
    [Broadcast, ChannelJoin, Ping, Search, Login, APIPing]
  }

  /** Position of a kind in the declaration order. */
  function Rank(k: Kind): nat
  {
    match k
    case Broadcast => 0
    case ChannelJoin => 1
    case Ping => 2
    case Search => 3
    case Login => 4
    case APIPing => 5
  }

  function Enabled(cfg: Config, k: Kind): bool
  {
    match k
    case Broadcast => cfg.broadcast
    case ChannelJoin => cfg.channelJoin
    case Ping => cfg.ping
    case Search => cfg.search
    case Login => cfg.login
    case APIPing => cfg.apiPing
  }

  /** The wiring each kind must get: broadcast gets both clients and the report
      channel, search gets client 1 and the report channel, login runs as
      (client 1, UserA) or (client 2, UserB), every other kind gets client 1 only. */
  predicate WiredAsDeclared(p: ProbeDesc)
  {
    match p.kind
    case Broadcast => p.clients == [Client1, Client2] && p.user == None && p.hasReportChannel
    case Search => p.clients == [Client1] && p.user == None && p.hasReportChannel
    case Login =>
      !p.hasReportChannel &&
      ((p.clients == [Client1] && p.user == Some(UserA)) || (p.clients == [Client2] && p.user == Some(UserB)))
    case ChannelJoin => p.clients == [Client1] && p.user == None && !p.hasReportChannel
    case Ping => p.clients == [Client1] && p.user == None && !p.hasReportChannel
    case APIPing => p.clients == [Client1] && p.user == None && !p.hasReportChannel
  }

  const LoginAsA: ProbeDesc := ProbeDesc(Login, [Client1], Some(UserA), false)
  const LoginAsB: ProbeDesc := ProbeDesc(Login, [Client2], Some(UserB), false)

  /** The instances one enabled kind contributes: one, or for login the pair
      (client 1, UserA) then (client 2, UserB). */
  function Instances(k: Kind): (r: seq<ProbeDesc>)
    ensures |r| == if k == Login then 2 else 1
    ensures forall i :: 0 <= i < |r| ==> r[i].kind == k && WiredAsDeclared(r[i])
    ensures k == Login ==> r == [LoginAsA, LoginAsB]
  {
    match k
    case Broadcast => [ProbeDesc(Broadcast, [Client1, Client2], None, true)]
    case ChannelJoin => [ProbeDesc(ChannelJoin, [Client1], None, false)]
    case Ping => [ProbeDesc(Ping, [Client1], None, false)]
    case Search => [ProbeDesc(Search, [Client1], None, true)]
    case Login => [LoginAsA, LoginAsB]
    case APIPing => [ProbeDesc(APIPing, [Client1], None, false)]
  }

  function Section(cfg: Config, k: Kind): seq<ProbeDesc>
  {
    if Enabled(cfg, k) then Instances(k) else []
  }

  /** Reference definition: the sections of the enabled kinds of `ks`, in the order of `ks`. */
  function Build(cfg: Config, ks: seq<Kind>): seq<ProbeDesc>
  {
    if ks == [] then [] else Build(cfg, ks[..|ks| - 1]) + Section(cfg, ks[|ks| - 1])
  }

  /** What `NewProbes` must return for a configuration. */
  function Expected(cfg: Config): seq<ProbeDesc>
  {
    Build(cfg, Declared())
  }

  /** Number of instances the configuration asks for: one per enabled flag,
      two for login. */
  function InstanceCount(cfg: Config): nat
  {
    (if cfg.broadcast then 1 else 0) + (if cfg.channelJoin then 1 else 0) +
    (if cfg.ping then 1 else 0) + (if cfg.search then 1 else 0) +
    (if cfg.login then 2 else 0) + (if cfg.apiPing then 1 else 0)
  }

  /** Strictly increasing in declaration order (no kind listed twice). */
  ghost predicate Ascending(ks: seq<Kind>)
  {
    forall i, j :: 0 <= i < j < |ks| ==> Rank(ks[i]) < Rank(ks[j])
  }

  /** `block` occurs in `b` starting at position `i`. */
  ghost predicate BlockAt(b: seq<ProbeDesc>, i: int, block: seq<ProbeDesc>)
  {
    0 <= i && i + |block| <= |b| && b[i..i + |block|] == block
  }

  /** The login pair sits at positions `i`, `i + 1` of `b`, and no other position holds a login instance. */
  ghost predicate LoginPairAt(b: seq<ProbeDesc>, i: int)
  {
    0 <= i && i + 1 < |b| && b[i] == LoginAsA && b[i + 1] == LoginAsB &&
    forall j :: 0 <= j < |b| && b[j].kind == Login ==> j == i || j == i + 1
  }

  /** NewProbes (probe/probe.go:21-57): grows the list step by step, one
      conditional append per configuration section. */
  method NewProbes(cfg: Config) returns (probes: seq<ProbeDesc>)
    ensures probes == Expected(cfg)
  {
    probes := [];
    if cfg.broadcast {
      var p := ProbeDesc(Broadcast, [Client1, Client2], None, false);
      p := p.(hasReportChannel := true);
      probes := probes + [p];
    }
    assert probes == Section(cfg, Broadcast);
    if cfg.channelJoin {
      var p := ProbeDesc(ChannelJoin, [Client1], None, false);
      probes := probes + [p];
    }
    assert probes == Section(cfg, Broadcast) + Section(cfg, ChannelJoin);
    if cfg.ping {
      var p := ProbeDesc(Ping, [Client1], None, false);
      probes := probes + [p];
    }
    assert probes == Section(cfg, Broadcast) + Section(cfg, ChannelJoin) + Section(cfg, Ping);
    if cfg.search {
      var p := ProbeDesc(Search, [Client1], None, false);
      p := p.(hasReportChannel := true);
      probes := probes + [p];
    }
    assert probes == Section(cfg, Broadcast) + Section(cfg, ChannelJoin) + Section(cfg, Ping) + Section(cfg, Search);
    if cfg.login {
      var p1 := ProbeDesc(Login, [Client1], Some(UserA), false);
      var p2 := ProbeDesc(Login, [Client2], Some(UserB), false);
      probes := probes + [p1, p2];
    }
    assert probes == Section(cfg, Broadcast) + Section(cfg, ChannelJoin) + Section(cfg, Ping) + Section(cfg, Search) + Section(cfg, Login);
    if cfg.apiPing {
      var p := ProbeDesc(APIPing, [Client1], None, false);
      probes := probes + [p];
    }
    ExpectedBySection(cfg);
  }

  /** The reference definition, unfolded over the six declared kinds. */
  lemma ExpectedBySection(cfg: Config)
    ensures Expected(cfg) ==
      Section(cfg, Broadcast) + Section(cfg, ChannelJoin) + Section(cfg, Ping) +
      Section(cfg, Search) + Section(cfg, Login) + Section(cfg, APIPing)
  {
    assert Declared()[..5] == [Broadcast, ChannelJoin, Ping, Search, Login];
    assert Declared()[..5][..4] == [Broadcast, ChannelJoin, Ping, Search];
    assert Declared()[..5][..4][..3] == [Broadcast, ChannelJoin, Ping];
    assert Declared()[..5][..4][..3][..2] == [Broadcast, ChannelJoin];
    assert Declared()[..5][..4][..3][..2][..1] == [Broadcast];
    assert [Broadcast][..0] == [];
  }

  /** Every instance built from `ks` is of an enabled kind listed in `ks`, and is wired as declared. */
  lemma {:induction false} BuildMembers(cfg: Config, ks: seq<Kind>)
    ensures forall i :: 0 <= i < |Build(cfg, ks)| ==>
      Build(cfg, ks)[i].kind in ks && Enabled(cfg, Build(cfg, ks)[i].kind) && WiredAsDeclared(Build(cfg, ks)[i])
  {
    if ks != [] {
      var front, last := ks[..|ks| - 1], ks[|ks| - 1];
      BuildMembers(cfg, front);
      var a: seq<ProbeDesc>, s: seq<ProbeDesc> := Build(cfg, front), Section(cfg, last);
      var b: seq<ProbeDesc> := a + s;
      forall i | 0 <= i < |b|
        ensures b[i].kind in ks && Enabled(cfg, b[i].kind) && WiredAsDeclared(b[i])
      {
        if i < |a| {
          assert b[i] == a[i];
          assert a[i].kind in front;
        } else {
          assert b[i] == s[i - |a|];
        }
      }
    }
  }

  /** Every enabled kind of `ks` contributes its instances as one contiguous block. */
  lemma {:induction false} BuildContains(cfg: Config, ks: seq<Kind>, k: Kind)
    requires k in ks && Enabled(cfg, k)
    ensures exists i :: BlockAt(Build(cfg, ks), i, Instances(k))
  {
    var front, last := ks[..|ks| - 1], ks[|ks| - 1];
    assert Build(cfg, ks) == Build(cfg, front) + Section(cfg, last);
    if k == last {
      BlockAtEnd(Build(cfg, front), Section(cfg, last));
    } else {
      assert k in front by { assert ks == front + [last]; }
      BuildContains(cfg, front, k);
      var i :| BlockAt(Build(cfg, front), i, Instances(k));
      BlockAtExtend(Build(cfg, front), Section(cfg, last), i, Instances(k));
    }
  }

  /** A named step for BuildContains: the appended part is a block at the end. */
  lemma BlockAtEnd(a: seq<ProbeDesc>, s: seq<ProbeDesc>)
    ensures BlockAt(a + s, |a|, s)
  {
  }

  /** A named step for BuildContains: appending keeps an earlier block in place. */
  lemma BlockAtExtend(a: seq<ProbeDesc>, s: seq<ProbeDesc>, i: int, block: seq<ProbeDesc>)
    requires BlockAt(a, i, block)
    ensures BlockAt(a + s, i, block)
  {
  }

  /** Instances built from kinds listed in declaration order appear in
      declaration order, and two instances share a kind only as the login pair. */
  lemma {:induction false} BuildOrdered(cfg: Config, ks: seq<Kind>)
    requires Ascending(ks)
    ensures forall i, j :: 0 <= i < j < |Build(cfg, ks)| ==>
      Rank(Build(cfg, ks)[i].kind) <= Rank(Build(cfg, ks)[j].kind)
    ensures forall i, j :: 0 <= i < j < |Build(cfg, ks)| && Build(cfg, ks)[i].kind == Build(cfg, ks)[j].kind ==>
      j == i + 1 && Build(cfg, ks)[i] == LoginAsA && Build(cfg, ks)[j] == LoginAsB
  {
    if ks != [] {
      var front, last := ks[..|ks| - 1], ks[|ks| - 1];
      BuildOrdered(cfg, front);
      BuildMembers(cfg, front);
      var a: seq<ProbeDesc>, s: seq<ProbeDesc> := Build(cfg, front), Section(cfg, last);
      var b: seq<ProbeDesc> := a + s;
      forall i, j | 0 <= i < j < |b|
        ensures Rank(b[i].kind) <= Rank(b[j].kind)
        ensures b[i].kind == b[j].kind ==> j == i + 1 && b[i] == LoginAsA && b[j] == LoginAsB
      {
        if j < |a| {
          assert b[i] == a[i] && b[j] == a[j];
        } else if i < |a| {
          assert b[i] == a[i] && b[j] == s[j - |a|];
          var m :| 0 <= m < |front| && front[m] == a[i].kind;
          assert Rank(a[i].kind) < Rank(last);
        } else {
          assert b[i] == s[i - |a|] && b[j] == s[j - |a|];
        }
      }
    }
  }

  /** A kind appears in the output of NewProbes exactly when its flag is set. */
  lemma KindPresence(cfg: Config, k: Kind)
    ensures (exists i :: 0 <= i < |Expected(cfg)| && Expected(cfg)[i].kind == k) <==> Enabled(cfg, k)
  {
    BuildMembers(cfg, Declared());
    if Enabled(cfg, k) {
      BuildContains(cfg, Declared(), k);
      var i :| BlockAt(Expected(cfg), i, Instances(k));
      assert Expected(cfg)[i] == Instances(k)[0];
    }
  }

  /** Every instance NewProbes returns is wired as its kind requires. */
  lemma Wiring(cfg: Config)
    ensures forall i :: 0 <= i < |Expected(cfg)| ==> WiredAsDeclared(Expected(cfg)[i])
  {
    BuildMembers(cfg, Declared());
  }

  /** The output has one instance per enabled flag, two for login, and is
      empty exactly when no flag is set. */
  lemma Count(cfg: Config)
    ensures |Expected(cfg)| == InstanceCount(cfg)
    ensures Expected(cfg) == [] <==>
      !(cfg.broadcast || cfg.channelJoin || cfg.ping || cfg.search || cfg.login || cfg.apiPing)
  {
    ExpectedBySection(cfg);
  }

  /** The declared order is strictly ascending by Rank. */
  lemma DeclaredAscending()
    ensures Ascending(Declared())
  {
  }

  /** The output follows declaration order: broadcast, channel-join, ping,
      search, login, API-ping; no kind appears twice except login's pair. */
  lemma DeclarationOrder(cfg: Config)
    ensures forall i, j :: 0 <= i < j < |Expected(cfg)| ==>
      Rank(Expected(cfg)[i].kind) <= Rank(Expected(cfg)[j].kind)
    ensures forall i, j :: 0 <= i < j < |Expected(cfg)| && Expected(cfg)[i].kind == Expected(cfg)[j].kind ==>
      Expected(cfg)[i].kind == Login && j == i + 1
  {
    DeclaredAscending();
    BuildOrdered(cfg, Declared());
  }

  /** With login enabled, the output holds the (client 1, UserA) instance
      immediately followed by the (client 2, UserB) instance, and no other
      login instance; with login disabled it holds none. */
  lemma LoginPair(cfg: Config)
    ensures cfg.login ==> exists i :: LoginPairAt(Expected(cfg), i)
    ensures !cfg.login ==> forall j :: 0 <= j < |Expected(cfg)| ==> Expected(cfg)[j].kind != Login
  {
    if cfg.login {
      DeclaredAscending();
      assert Declared()[4] == Login;
      BuildLoginPair(cfg, Declared());
      var i :| LoginPairAt(Build(cfg, Declared()), i);
      assert LoginPairAt(Expected(cfg), i);
    } else {
      BuildMembers(cfg, Declared());
    }
  }

  /** With login enabled and listed once, its pair is built once, as one block. */
  lemma BuildLoginPair(cfg: Config, ks: seq<Kind>)
    requires Ascending(ks) && Login in ks && cfg.login
    ensures exists i :: LoginPairAt(Build(cfg, ks), i)
  {
    var b := Build(cfg, ks);
    BuildOrdered(cfg, ks);
    BuildContains(cfg, ks, Login);
    var i :| BlockAt(b, i, Instances(Login));
    assert b[i] == b[i..i + 2][0] && b[i + 1] == b[i..i + 2][1];
    assert LoginPairAt(b, i);
  }
}

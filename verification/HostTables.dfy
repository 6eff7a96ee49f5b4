/**
 The in-place parts of a host (rallyci/providers/virsh.py: Host.get_vms, VM.destroy,
 Host.cleanup_net), each proved against the function the transition system uses.
 */
module HostTables {
  import opened Options
  import opened BridgeNames
  import opened Bridges
  import opened BridgeInvariant

  class Host {
    var brVm: map<Option<string>, seq<VmId>>

    constructor ()
      ensures brVm == map[]
    {
      brVm := map[];
    }

    /** setdefault and append, at the end of get_vms for one VM. */
    method RegisterVm(br: Option<string>, v: VmId)
      modifies this
      ensures brVm == Register(old(brVm), br, v)
      ensures brVm.Keys == old(brVm).Keys + {br}
      ensures brVm[br] == (if br in old(brVm) then old(brVm)[br] else []) + [v]
      ensures forall k :: k in old(brVm) && k != br ==> brVm[k] == old(brVm)[k]
    {
      if br !in brVm {
        brVm := brVm[br := []];
      }
      brVm := brVm[br := brVm[br] + [v]];
    }

    /** The loop of VM.destroy over self.bridges. */
    method DetachVm(nets: seq<Net>, v: VmId)
      modifies this
      ensures brVm == Detach(old(brVm), nets, v)
    {
      for i := 0 to |nets|
        invariant brVm == Detach(old(brVm), nets[..i], v)
      {
        assert nets[..i + 1][..i] == nets[..i];
        var br := Some(nets[i].ifname);
        if br in brVm && brVm[br] != [] && v in brVm[br] {
          brVm := brVm[br := Remove(brVm[br], v)];
        }
      }
      assert nets[..|nets|] == nets;
    }

    /** cleanup_net without interference: the entries that are empty, and only those, are
        deleted; `clean` are the links to delete. */
    method CleanupNet() returns (clean: set<Option<string>>)
      modifies this
      ensures clean == set k | k in old(brVm) && old(brVm)[k] == []
      ensures brVm == map k | k in old(brVm) && old(brVm)[k] != [] :: old(brVm)[k]
    {
      clean := {};
      var todo := brVm.Keys;
      while todo != {}
        invariant todo <= brVm.Keys && brVm == old(brVm)
        invariant clean == set k | k in brVm && k !in todo && brVm[k] == []
        decreases todo
      {
        var k :| k in todo;
        if brVm[k] == [] {
          clean := clean + {k};
        }
        todo := todo - {k};
      }
      brVm := brVm - clean;
    }
  }

  /** Each placeholder seen so far is on its own existing link. */
  predicate IfsOk(ifs: map<string, string>, links: set<string>) {
    Injective(ifs) && forall p :: p in ifs ==> ifs[p] in links
  }

  predicate Extends(ifs: map<string, string>, more: map<string, string>) {
    forall p :: p in ifs ==> p in more && more[p] == ifs[p]
  }

  /** Bridges were added for new placeholders, under new names, and nothing else happened. */
  predicate Grown(ifs: map<string, string>, links: set<string>, ifs1: map<string, string>, links1: set<string>) {
    && Extends(ifs, ifs1) && links <= links1
    && (forall b :: b in links1 && b !in links ==> b in ifs1.Values)
    && (forall p :: p in ifs1 && p !in ifs ==> ifs1[p] in links1 && ifs1[p] !in links)
  }

  lemma GrownTwice(ifs: map<string, string>, links: set<string>, ifs1: map<string, string>, links1: set<string>,
                   ifs2: map<string, string>, links2: set<string>)
    requires Grown(ifs, links, ifs1, links1) && Grown(ifs1, links1, ifs2, links2)
    ensures Grown(ifs, links, ifs2, links2)
  {
    forall b | b in links2 && b !in links ensures b in ifs2.Values {
      if b in links1 {
        var p :| p in ifs1 && ifs1[p] == b;
        assert ifs2[p] == b;
      }
    }
  }

  /** The bridge of the last dynamic net. */
  function LastBridge(ifs: map<string, string>, conf: seq<Net>): Option<string>
    decreases |conf|
  {
    if conf == [] then None
    else
      var n := conf[|conf| - 1];
      if IsDynamic(n) && n.ifname in ifs then Some(ifs[n.ifname]) else LastBridge(ifs, conf[..|conf| - 1])
  }

  predicate Covered(ifs: map<string, string>, conf: seq<Net>) {
    forall i :: 0 <= i < |conf| && IsDynamic(conf[i]) ==> conf[i].ifname in ifs
  }

  lemma {:induction false} LastBridgeKept(ifs: map<string, string>, more: map<string, string>, conf: seq<Net>)
    requires Extends(ifs, more) && Covered(ifs, conf)
    ensures LastBridge(more, conf) == LastBridge(ifs, conf)
    decreases |conf|
  {
    if conf != [] {
      LastBridgeKept(ifs, more, conf[..|conf| - 1]);
    }
  }

  lemma ReplacedKept(ifs: map<string, string>, more: map<string, string>, conf: seq<Net>, nets: seq<Net>)
    requires Extends(ifs, more) && Replaced(ifs, conf, nets)
    ensures Replaced(more, conf, nets)
  {
  }

  /** The bridge of a placeholder is named by letters, those of the placeholder, and a number. */
  predicate HasPrefix(p: string, b: string) {
    Matches(b) && p == PrefixOf(b) + "%"
  }

  predicate Prefixed(ifs: map<string, string>, more: map<string, string>) {
    forall p :: p in more && p !in ifs ==> HasPrefix(p, more[p])
  }

  lemma PrefixedTwice(a: map<string, string>, b: map<string, string>, c: map<string, string>)
    requires Prefixed(a, b) && Prefixed(b, c) && Extends(b, c)
    ensures Prefixed(a, c)
  {
    forall p | p in c && p !in a ensures HasPrefix(p, c[p]) {
      assert p in b ==> c[p] == b[p] && HasPrefix(p, b[p]);
    }
  }

  /** A new placeholder gets a new bridge, the others keep theirs. */
  method TakePlaceholder(n: Net, ifs0: map<string, string>, links0: set<string>)
    returns (ifs: map<string, string>, links: set<string>)
    requires IfsOk(ifs0, links0) && IsDynamic(n) && Letters(Prefix(n))
    ensures IfsOk(ifs, links) && Grown(ifs0, links0, ifs, links)
    ensures ifs.Keys == ifs0.Keys + {n.ifname}
    ensures Prefixed(ifs0, ifs)
  {
    ifs, links := ifs0, links0;
    if n.ifname !in ifs {
      var name := Bridge(links, Prefix(n));
      BridgeIsFresh(links, Prefix(n));
      NameSplits(Prefix(n), Least(Used(links, Prefix(n))));
      links := links + {name};
      ifs := ifs[n.ifname := name];
      assert ifs[n.ifname] == name;
    }
  }

  /** `br` is where the last dynamic net is, None if there is no dynamic net. */
  predicate IsLast(conf: seq<Net>, nets: seq<Net>, br: Option<string>)
    requires |nets| == |conf|
  {
    && (br.None? ==> forall i :: 0 <= i < |conf| ==> !IsDynamic(conf[i]))
    && (br.Some? ==>
          exists i :: 0 <= i < |conf| && IsDynamic(conf[i]) && br == Some(nets[i].ifname)
            && forall j :: i < j < |conf| ==> !IsDynamic(conf[j]))
  }

  lemma ReplacedNext(ifs: map<string, string>, conf: seq<Net>, nets: seq<Net>, n: Net)
    requires Replaced(ifs, conf, nets) && |nets| < |conf| && n == Subst(ifs, conf[|nets|])
    requires IsDynamic(conf[|nets|]) ==> conf[|nets|].ifname in ifs
    ensures Replaced(ifs, conf, nets + [n])
  {
  }

  /** The inner loop of get_vms for one VM, without interference: placeholders are replaced,
      one new bridge per new placeholder, and everything else is copied. `br` ends as the
      bridge of the last dynamic net. */
  method PrepareNets(conf: seq<Net>, ifs0: map<string, string>, links0: set<string>)
    returns (nets: seq<Net>, br: Option<string>, ifs: map<string, string>, links: set<string>)
    requires IfsOk(ifs0, links0)
    requires forall i :: 0 <= i < |conf| && IsDynamic(conf[i]) ==> Letters(Prefix(conf[i]))
    ensures |nets| == |conf| && Replaced(ifs, conf, nets)
    ensures IfsOk(ifs, links) && Grown(ifs0, links0, ifs, links)
    ensures Prefixed(ifs0, ifs)
    ensures br == LastBridge(ifs, conf)
    ensures IsLast(conf, nets, br)
  {
    nets, br, ifs, links := [], None, ifs0, links0;
    for k := 0 to |conf|
      invariant |nets| == k && Replaced(ifs, conf, nets)
      invariant IfsOk(ifs, links) && Grown(ifs0, links0, ifs, links)
      invariant Prefixed(ifs0, ifs)
      invariant br == LastBridge(ifs, conf[..k])
    {
      var n := conf[k];
      ghost var ifs1, links1 := ifs, links;
      if IsDynamic(n) {
        ifs, links := TakePlaceholder(n, ifs, links);
        GrownTwice(ifs0, links0, ifs1, links1, ifs, links);
        PrefixedTwice(ifs0, ifs1, ifs);
        LastBridgeKept(ifs1, ifs, conf[..k]);
        ReplacedKept(ifs1, ifs, conf, nets);
        br := Some(ifs[n.ifname]);
        n := n.(ifname := ifs[n.ifname]);
      }
      assert conf[..k + 1][..k] == conf[..k];
      ReplacedNext(ifs, conf, nets, n);
      nets := nets + [n];
    }
    assert conf[..|conf|] == conf;
    LastBridgeIs(ifs, conf, nets);
  }

  lemma {:induction false} LastBridgeIs(ifs: map<string, string>, conf: seq<Net>, nets: seq<Net>)
    requires |nets| == |conf| && Replaced(ifs, conf, nets)
    ensures IsLast(conf, nets, LastBridge(ifs, conf))
    decreases |conf|
  {
    if conf != [] {
      var k := |conf| - 1;
      assert nets[k] == Subst(ifs, conf[k]);
      if !IsDynamic(conf[k]) {
        LastBridgeIs(ifs, conf[..k], nets[..k]);
        if LastBridge(ifs, conf).Some? {
          var i :| 0 <= i < k && IsDynamic(conf[..k][i]) && LastBridge(ifs, conf[..k]) == Some(nets[..k][i].ifname)
            && forall j :: i < j < k ==> !IsDynamic(conf[..k][j]);
          assert IsDynamic(conf[i]) && LastBridge(ifs, conf) == Some(nets[i].ifname);
          forall j | i < j < |conf| ensures !IsDynamic(conf[j]) {
            assert j < k ==> !IsDynamic(conf[..k][j]);
          }
        }
      }
    }
  }
}

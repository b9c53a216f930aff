/**
 * The storage cards of a joining host (web/baremetal_onboarding_runtime.py,
 * _verify_nics): found by address in its inventory, and left alone by every
 * network configuration that applies to it.
 */
module StorageCards {
  import opened Text
  import opened Wrappers

  /** One line of the host's inventory. */
  datatype Link = Link(mac: string, name: string, kind: string, master: Option<int>)

  /** A storage role and the address planned for it, in lower case. */
  datatype Port = Port(role: string, mac: string)

  /** A network configuration: the labels it selects hosts by, and the cards it takes there. */
  datatype Config = Config(deleting: bool, selector: map<string, string>, nics: seq<string>)

  /** It is a physical card with this address, which is written in lower case. */
  ghost predicate Bears(l: Link, mac: string) {
    Lower(l.mac) == mac && l.kind == "device"
  }

  /** No bond holds it. */
  ghost predicate Free(l: Link) {
    l.master.None? || l.master == Some(0)
  }

  /** It is there to stay, and selects a host with these labels. */
  ghost predicate Applies(c: Config, labels: map<string, string>) {
    !c.deleting && forall k :: k in c.selector ==> k in labels && labels[k] == c.selector[k]
  }

  /** One physical card bears the address, and no bond holds it. */
  ghost predicate OneCard(links: seq<Link>, mac: string) {
    exists k :: 0 <= k < |links| && Free(links[k]) && forall j :: 0 <= j < |links| ==> (Bears(links[j], mac) <==> j == k)
  }

  /** Every storage address has its card, and no configuration that applies to the host takes one of these. */
  ghost predicate InPlace(ports: seq<Port>, labels: map<string, string>, links: seq<Link>, configs: seq<Config>) {
    && (forall p :: p in ports ==> OneCard(links, p.mac))
    && forall c, l, p :: c in configs && Applies(c, labels) && l in links && p in ports && Bears(l, p.mac) ==> l.name !in c.nics
  }

  function Matches(links: seq<Link>, mac: string): seq<Link> {
    if links == [] then []
    else
      var last := links[|links| - 1];
      Matches(links[..|links| - 1], mac) + (if Lower(last.mac) == mac && last.kind == "device" then [last] else [])
  }

  lemma {:induction false} MatchesHold(links: seq<Link>, mac: string)
    ensures forall l :: l in Matches(links, mac) <==> l in links && Bears(l, mac)
  {
    if links == [] {
    } else {
      var n := |links| - 1;
      MatchesHold(links[..n], mac);
      assert forall l :: l in links <==> l in links[..n] || l == links[n];
    }
  }

  lemma {:induction false} NoMatch(links: seq<Link>, mac: string)
    ensures Matches(links, mac) == [] <==> forall j :: 0 <= j < |links| ==> !Bears(links[j], mac)
  {
    MatchesHold(links, mac);
    if l :| l in links && Bears(l, mac) {
      assert l in Matches(links, mac);
    }
    if Matches(links, mac) != [] {
      assert Matches(links, mac)[0] in Matches(links, mac);
    }
  }

  lemma {:induction false} MatchesMore(links: seq<Link>, mac: string)
    requires links != []
    ensures var n := |links| - 1; Matches(links, mac) == Matches(links[..n], mac) + (if Bears(links[n], mac) then [links[n]] else [])
  {
  }

  /** One match, and free: exactly when there is one card. */
  lemma {:induction false} OneMatchIff(links: seq<Link>, mac: string)
    ensures |Matches(links, mac)| == 1 && Free(Matches(links, mac)[0]) <==> OneCard(links, mac)
  {
    if links == [] {
    } else {
      var n := |links| - 1;
      var before, last := links[..n], links[n];
      NoMatch(before, mac);
      OneMatchIff(before, mac);
      MatchesMore(links, mac);
      hide Bears, Free, Matches;
      assert forall j :: 0 <= j < n ==> before[j] == links[j];
      if Bears(last, mac) {
        assert Matches(links, mac)[|Matches(before, mac)|] == last;
        if Matches(before, mac) == [] {
          assert OneCard(links, mac) <==> Free(last);
        } else {
          var j :| 0 <= j < n && Bears(before[j], mac);
          assert Bears(links[j], mac) && !OneCard(links, mac);
        }
      } else {
        assert Matches(links, mac) == Matches(before, mac);
        if k :| 0 <= k < n && Free(before[k]) && forall j :: 0 <= j < n ==> (Bears(before[j], mac) <==> j == k) {
          assert Free(links[k]) && forall j :: 0 <= j < |links| ==> (Bears(links[j], mac) <==> j == k);
        }
        if k :| 0 <= k < |links| && Free(links[k]) && forall j :: 0 <= j < |links| ==> (Bears(links[j], mac) <==> j == k) {
          assert k < n && Free(before[k]) && forall j :: 0 <= j < n ==> (Bears(before[j], mac) <==> j == k);
        }
      }
    }
  }

  /** The names of the storage cards, or None when one has not its single card. */
  method CardNames(ports: seq<Port>, links: seq<Link>) returns (names: Option<set<string>>)
    ensures names.Some? <==> forall p :: p in ports ==> OneCard(links, p.mac)
    ensures names.Some? ==> forall x :: x in names.value <==> exists p, l :: p in ports && l in links && Bears(l, p.mac) && l.name == x
  {
    var found: set<string> := {};
    for n := 0 to |ports|
      invariant forall p :: p in ports[..n] ==> OneCard(links, p.mac)
      invariant forall x :: x in found <==> exists p, l :: p in ports[..n] && l in links && Bears(l, p.mac) && l.name == x
    {
      var matches := Matches(links, ports[n].mac);
      OneMatchIff(links, ports[n].mac);
      MatchesHold(links, ports[n].mac);
      assert ports[n] in ports && ports[..n + 1] == ports[..n] + [ports[n]];
      assert |matches| == 1 ==> (Free(matches[0]) <==> matches[0].master.None? || matches[0].master.value == 0);
      hide Bears, OneCard, Matches, Free;
      if |matches| != 1 || (matches[0].master.Some? && matches[0].master.value != 0) {
        return None;
      }
      assert forall l :: l in matches <==> l == matches[0];
      found := found + {matches[0].name};
    }
    assert ports[..|ports|] == ports;
    names := Some(found);
  }

  /** Whether no configuration that applies to the host takes one of these cards. */
  method LeftAlone(configs: seq<Config>, labels: map<string, string>, names: set<string>) returns (alone: bool)
    ensures alone <==> forall c, x :: c in configs && Applies(c, labels) && x in c.nics ==> x !in names
  {
    for n := 0 to |configs|
      invariant forall c, x :: c in configs[..n] && Applies(c, labels) && x in c.nics ==> x !in names
    {
      assert configs[n] in configs && configs[..n + 1] == configs[..n] + [configs[n]];
      var c := configs[n];
      var selects := forall k :: k in c.selector ==> k in labels && labels[k] == c.selector[k];
      if !c.deleting && selects {
        if exists x :: x in configs[n].nics && x in names {
          return false;
        }
      }
    }
    assert configs[..|configs|] == configs;
    alone := true;
  }

  /** Both together. */
  lemma {:induction false} InPlaceIff(ports: seq<Port>, labels: map<string, string>, links: seq<Link>, configs: seq<Config>, names: set<string>)
    requires forall p :: p in ports ==> OneCard(links, p.mac)
    requires forall x :: x in names <==> exists p, l :: p in ports && l in links && Bears(l, p.mac) && l.name == x
    ensures InPlace(ports, labels, links, configs)
       <==> forall c, x :: c in configs && Applies(c, labels) && x in c.nics ==> x !in names
  {
    hide OneCard, Bears, Applies;
    if forall c, x :: c in configs && Applies(c, labels) && x in c.nics ==> x !in names {
      forall c, l, p | c in configs && Applies(c, labels) && l in links && p in ports && Bears(l, p.mac)
        ensures l.name !in c.nics
      {
        assert l.name in names;
      }
    }
    if InPlace(ports, labels, links, configs) {
      forall c, x | c in configs && Applies(c, labels) && x in c.nics
        ensures x !in names
      {
        assert forall p, l :: p in ports && l in links && Bears(l, p.mac) ==> l.name != x;
      }
    }
  }
}

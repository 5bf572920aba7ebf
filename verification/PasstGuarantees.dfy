// What forcePasstBinding guarantees, and exactly when.
module PasstGuarantees {
  import opened Common
  import opened PasstNetworks

  // Interface i uses passt only, and the first network of its name is a pod network and not Multus.
  predicate Linked(s: Spec, i: nat)
    requires i < |s.interfaces|
  {
    var name := s.interfaces[i].name;
    && s.interfaces[i].binding == PASST_ONLY
    && Has(s.networks, name)
    && IsPodOnly(s.networks[First(s.networks, name)])
  }

  predicate AllLinked(s: Spec) {
    forall i :: 0 <= i < |s.interfaces| ==> Linked(s, i)
  }

  // An interface without a network of its own is sent to "default"; this is whether it finds a pod
  // network there: "default" is missing (so it gets appended), is pod-only already, or is rewritten
  // because some interface carried that name from the start.
  predicate DefaultIsSafe(s: Spec) {
    var base := Prepended(s.networks);
    || !Has(base, DEFAULT)
    || IsPodOnly(base[First(base, DEFAULT)])
    || DEFAULT in InterfaceNames(s.interfaces)
  }

  // The network that interface i finally resolves to.
  lemma ResolvedNetwork(s: Spec, i: nat)
    requires i < |s.interfaces|
    ensures var t, base, name := Forced(s), Prepended(s.networks), s.interfaces[i].name;
      var final := t.interfaces[i].name;
      && Has(t.networks, final)
      && t.networks[First(t.networks, final)] ==
           if Has(base, name) then PodOnlyNetwork(name)
           else if !Has(base, DEFAULT) || DEFAULT in InterfaceNames(s.interfaces) then DEFAULT_NETWORK
           else base[First(base, DEFAULT)]
  {
    var base, names := Prepended(s.networks), InterfaceNames(s.interfaces);
    assert names[i] in names;
    FirstInNetworks(base, names, FinalName(base, names[i]));
    if !Has(base, names[i]) {
      assert SomeUnmatched(base, names);
    }
  }

  lemma LinkedIff(s: Spec, i: nat)
    requires i < |s.interfaces|
    ensures Linked(Forced(s), i) <==> Has(Prepended(s.networks), s.interfaces[i].name) || DefaultIsSafe(s)
  {
    ResolvedNetwork(s, i);
  }

  // Every interface ends up linked exactly when each has its own network, or "default" is safe.
  lemma AllLinkedIff(s: Spec)
    ensures AllLinked(Forced(s)) <==>
      (forall i :: 0 <= i < |s.interfaces| ==> Has(Prepended(s.networks), s.interfaces[i].name)) || DefaultIsSafe(s)
  {
    forall i | 0 <= i < |s.interfaces|
      ensures Linked(Forced(s), i) <==> Has(Prepended(s.networks), s.interfaces[i].name) || DefaultIsSafe(s)
    {
      LinkedIff(s, i);
    }
  }

  // A spec outside that condition: an interface without a network lands on a Multus "default".
  const UNLINKED := Spec(
    [Network("pod", Some(EMPTY_POD), None), Network(DEFAULT, None, Some("bridge-conf"))],
    [Interface("net1", PASST_ONLY, "")])

  lemma UnlinkedFacts()
    ensures Prepended(UNLINKED.networks) == UNLINKED.networks && InterfaceNames(UNLINKED.interfaces) == ["net1"]
    ensures !Has(UNLINKED.networks, "net1") && First(UNLINKED.networks, DEFAULT) == 1
    ensures UNLINKED.networks[1] != DEFAULT_NETWORK
  {
    assert UNLINKED.networks[0].pod.Some?;
    FirstIs(UNLINKED.networks, "net1", 2);
    FirstIs(UNLINKED.networks, DEFAULT, 1);
  }

  lemma UnlinkedExample()
    ensures !AllLinked(Forced(UNLINKED))
  {
    UnlinkedFacts();
    AllLinkedIff(UNLINKED);
    assert !Has(Prepended(UNLINKED.networks), UNLINKED.interfaces[0].name);
  }


  // -------- repeating the rewrite --------

  // Where every interface is bound and named, another pass only rewrites the networks in use.
  predicate Settled(t: Spec) {
    && HasPod(t.networks)
    && forall i :: 0 <= i < |t.interfaces| ==>
         t.interfaces[i].binding == PASST_ONLY && Has(t.networks, t.interfaces[i].name)
  }

  lemma ForcedIsSettled(s: Spec)
    ensures Settled(Forced(s))
  {
    var base, names := Prepended(s.networks), InterfaceNames(s.interfaces);
    var nets := Networks(base, names);
    assert HasPod(base) by {
      if !HasPod(s.networks) {
        assert base[0].pod.Some?;
      }
    }
    var j :| 0 <= j < |base| && base[j].pod.Some?;
    assert nets[j].pod.Some?;
    var t := Forced(s);
    forall i | 0 <= i < |t.interfaces|
      ensures t.interfaces[i].binding == PASST_ONLY && Has(nets, t.interfaces[i].name)
    {
      assert t.interfaces[i].name == FinalName(base, names[i]);
      FirstInNetworks(base, names, t.interfaces[i].name);
      if !Has(base, names[i]) {
        assert SomeUnmatched(base, names);
      }
    }
  }

  lemma ForcedOnSettled(t: Spec)
    requires Settled(t)
    ensures Forced(t) == Spec(Rewritten(t.networks, InterfaceNames(t.interfaces)), t.interfaces)
  {
    assert !SomeUnmatched(t.networks, InterfaceNames(t.interfaces));
    assert Renamed(t.networks, Bound(t.interfaces)) == t.interfaces;
  }

  lemma RewrittenTwice(nets: seq<Network>, names: seq<string>)
    ensures Rewritten(Rewritten(nets, names), names) == Rewritten(nets, names)
  {
    var r := Rewritten(nets, names);
    forall j | 0 <= j < |nets|
      ensures Touched(r, names, j) == r[j]
    {
      FirstIs(r, nets[j].name, First(nets, nets[j].name));
    }
  }

  // A third pass never changes anything.
  lemma ThirdPassIsSecond(s: Spec)
    ensures Forced(Forced(Forced(s))) == Forced(Forced(s))
  {
    var t := Forced(s);
    ForcedIsSettled(s);
    ForcedOnSettled(t);
    ForcedIsSettled(t);
    ForcedOnSettled(Forced(t));
    RewrittenTwice(t.networks, InterfaceNames(t.interfaces));
  }

  // The first network of interface i's name is the empty pod network, without Multus.
  predicate OnEmptyPod(t: Spec, i: nat)
    requires i < |t.interfaces|
  {
    var name := t.interfaces[i].name;
    Has(t.networks, name) && t.networks[First(t.networks, name)] == PodOnlyNetwork(name)
  }

  lemma RewrittenIsSameIff(t: Spec)
    requires Settled(t)
    ensures Rewritten(t.networks, InterfaceNames(t.interfaces)) == t.networks <==>
      forall i :: 0 <= i < |t.interfaces| ==> OnEmptyPod(t, i)
  {
    var names := InterfaceNames(t.interfaces);
    var r := Rewritten(t.networks, names);
    if r == t.networks {
      forall i | 0 <= i < |t.interfaces|
        ensures OnEmptyPod(t, i)
      {
        assert names[i] in names;
        assert r[First(t.networks, names[i])] == PodOnlyNetwork(names[i]);
      }
    }
    if forall i :: 0 <= i < |t.interfaces| ==> OnEmptyPod(t, i) {
      forall j | 0 <= j < |t.networks| && t.networks[j].name in names && First(t.networks, t.networks[j].name) == j
        ensures t.networks[j] == PodOnlyNetwork(t.networks[j].name)
      {
        var i :| 0 <= i < |names| && names[i] == t.networks[j].name;
        assert OnEmptyPod(t, i);
      }
      assert r == t.networks;
    }
  }

  // A second pass changes nothing exactly when after the first every interface's network is already
  // the empty pod network; on the input: each interface has its own network, or "default" is
  // missing, is the empty pod network already, or is some interface's own.
  lemma SecondPassIsFirstIff(s: Spec)
    ensures Forced(Forced(s)) == Forced(s) <==>
      forall i :: 0 <= i < |s.interfaces| ==> OnEmptyPod(Forced(s), i)
    ensures var base := Prepended(s.networks);
      Forced(Forced(s)) == Forced(s) <==>
        || (forall i :: 0 <= i < |s.interfaces| ==> Has(base, s.interfaces[i].name))
        || !Has(base, DEFAULT)
        || base[First(base, DEFAULT)] == DEFAULT_NETWORK
        || DEFAULT in InterfaceNames(s.interfaces)
  {
    ForcedIsSettled(s);
    ForcedOnSettled(Forced(s));
    RewrittenIsSameIff(Forced(s));
    var base := Prepended(s.networks);
    forall i | 0 <= i < |s.interfaces|
      ensures OnEmptyPod(Forced(s), i) <==>
        || Has(base, s.interfaces[i].name) || !Has(base, DEFAULT)
        || base[First(base, DEFAULT)] == DEFAULT_NETWORK || DEFAULT in InterfaceNames(s.interfaces)
    {
      ResolvedNetwork(s, i);
    }
  }

  // The unlinked spec outside that condition: only the second pass makes its "default" a pod network.
  lemma SecondPassExample()
    ensures Forced(Forced(UNLINKED)) != Forced(UNLINKED)
  {
    UnlinkedFacts();
    SecondPassIsFirstIff(UNLINKED);
    assert !Has(Prepended(UNLINKED.networks), UNLINKED.interfaces[0].name);
    assert InterfaceNames(UNLINKED.interfaces) == ["net1"] && "net1" != DEFAULT;
  }

  // -------- conservation --------

  function NetworkNames(nets: seq<Network>): (r: seq<string>)
    ensures |r| == |nets|
  {
    seq(|nets|, j requires 0 <= j < |nets| => nets[j].name)
  }

  // Networks keep their order and names; at most one "default" joins them, in front or at the end.
  lemma NetworksAreConserved(s: Spec)
    ensures var t := Forced(s);
      && |t.interfaces| == |s.interfaces|
      && (NetworkNames(t.networks) == NetworkNames(s.networks)
          || NetworkNames(t.networks) == [DEFAULT] + NetworkNames(s.networks)
          || NetworkNames(t.networks) == NetworkNames(s.networks) + [DEFAULT])
      && (NetworkNames(t.networks) != NetworkNames(s.networks) ==>
            !HasPod(s.networks) || !Has(s.networks, DEFAULT))
  {
    var base, names := Prepended(s.networks), InterfaceNames(s.interfaces);
    var t := Forced(s);
    if HasPod(s.networks) {
      assert base == s.networks;
    } else {
      FirstIs(base, DEFAULT, 0);
      assert Appended(base, names) == [];
      assert NetworkNames(t.networks) == [DEFAULT] + NetworkNames(s.networks);
    }
  }

  // Network j is what some interface's name finds first: an interface has the name of network j, no
  // earlier network has it, and no "default" was put in front of it.
  predicate IsFirstOf(s: Spec, j: nat)
    requires j < |s.networks|
  {
    && (exists i :: 0 <= i < |s.interfaces| && s.interfaces[i].name == s.networks[j].name)
    && (forall k :: 0 <= k < j ==> s.networks[k].name != s.networks[j].name)
    && ((exists k :: 0 <= k < |s.networks| && s.networks[k].pod.Some?) || s.networks[j].name != "default")
  }

  // Some interface has a name that no network has, not even the "default" put in front.
  predicate SomeAreSentToDefault(s: Spec) {
    exists i :: 0 <= i < |s.interfaces| && SentToDefault(s, i)
  }

  predicate SentToDefault(s: Spec, i: nat)
    requires i < |s.interfaces|
  {
    && (forall j :: 0 <= j < |s.networks| ==> s.networks[j].name != s.interfaces[i].name)
    && ((exists j :: 0 <= j < |s.networks| && s.networks[j].pod.Some?) || s.interfaces[i].name != "default")
  }

  lemma PrependedHas(s: Spec, name: string)
    ensures Has(Prepended(s.networks), name) <==>
      || (exists j :: 0 <= j < |s.networks| && s.networks[j].name == name)
      || (!HasPod(s.networks) && name == "default")
  {
    var base := Prepended(s.networks);
    if HasPod(s.networks) {
      assert base == s.networks;
    } else {
      assert base[0].name == "default" && base[1..] == s.networks;
    }
  }

  // Every interface keeps its place and all its other fields, is left with the passt binding alone, and keeps
  // its name if some network has it.
  lemma InterfacesKeepTheRest(s: Spec, i: nat)
    requires i < |s.interfaces|
    ensures var t := Forced(s);
      && |t.interfaces| == |s.interfaces|
      && t.interfaces[i].rest == s.interfaces[i].rest
      && t.interfaces[i].name == (if SentToDefault(s, i) then "default" else s.interfaces[i].name)
      && var b := t.interfaces[i].binding;
         b.passt && !b.masquerade && !b.bridge && !b.slirp && !b.sriov && !b.other
  {
    PrependedHas(s, s.interfaces[i].name);
  }

  // A "default" joins in front exactly when there was no pod network, and at the end exactly when there was
  // one, there is no "default", and some interface is sent there.
  lemma NetworksThatJoin(s: Spec)
    ensures var t, pod := Forced(s), exists k :: 0 <= k < |s.networks| && s.networks[k].pod.Some?;
      var missing := forall j :: 0 <= j < |s.networks| ==> s.networks[j].name != "default";
      var isNew := pod && missing && SomeAreSentToDefault(s);
      && |t.networks| == (if pod then 0 else 1) + |s.networks| + (if isNew then 1 else 0)
      && (!pod ==> t.networks[0] == Network("default", Some(PodNetwork("", "")), None))
      && (isNew ==> Last(t.networks) == Network("default", Some(PodNetwork("", "")), None))
  {
    var base, names := Prepended(s.networks), InterfaceNames(s.interfaces);
    PrependedHas(s, "default");
    forall i | 0 <= i < |s.interfaces|
      ensures SentToDefault(s, i) <==> !Has(base, names[i])
    {
      PrependedHas(s, names[i]);
    }
    assert SomeUnmatched(base, names) <==> SomeAreSentToDefault(s);
    if !HasPod(s.networks) {
      FirstIs(base, "default", 0);
    }
  }

  // Every other network keeps its place; it becomes the empty pod network if it is the first of some
  // interface's name, and is the same as before, in all fields, if not.
  lemma NetworksKeepTheRest(s: Spec, j: nat)
    requires j < |s.networks|
    ensures var t, pod := Forced(s), exists k :: 0 <= k < |s.networks| && s.networks[k].pod.Some?;
      var at := if pod then j else j + 1;
      && at < |t.networks|
      && t.networks[at] ==
           if IsFirstOf(s, j) then Network(s.networks[j].name, Some(PodNetwork("", "")), None) else s.networks[j]
  {
    IsFirstOfIff(s, j);
  }

  lemma IsFirstOfIff(s: Spec, j: nat)
    requires j < |s.networks|
    ensures var base, at, name := Prepended(s.networks), if HasPod(s.networks) then j else j + 1, s.networks[j].name;
      && at < |base| && base[at] == s.networks[j]
      && (IsFirstOf(s, j) <==> name in InterfaceNames(s.interfaces) && First(base, name) == at)
  {
    NameAmong(s.interfaces, s.networks[j].name);
    if HasPod(s.networks) {
      FirstAt(s.networks, j);
    } else {
      FirstBehind(s.networks, j);
    }
  }

  lemma FirstBehind(nets: seq<Network>, j: nat)
    requires j < |nets|
    ensures First([DEFAULT_NETWORK] + nets, nets[j].name) == j + 1 <==>
      nets[j].name != "default" && forall k :: 0 <= k < j ==> nets[k].name != nets[j].name
  {
    var base := [DEFAULT_NETWORK] + nets;
    FirstAt(base, j + 1);
    assert base[0].name == "default" && forall k :: 0 <= k < |nets| ==> base[k + 1] == nets[k];
    assert forall k :: 0 < k < j + 1 ==> base[k] == nets[k - 1];
  }

  lemma FirstAt(nets: seq<Network>, at: nat)
    requires at < |nets|
    ensures First(nets, nets[at].name) == at <==> forall k :: 0 <= k < at ==> nets[k].name != nets[at].name
  {
  }

  lemma NameAmong(ifs: seq<Interface>, name: string)
    ensures name in InterfaceNames(ifs) <==> exists i :: 0 <= i < |ifs| && ifs[i].name == name
  {
    if i :| 0 <= i < |ifs| && ifs[i].name == name {
      assert InterfaceNames(ifs)[i] == name;
    }
  }

  // The offline status lists the final interfaces in order, each under a pod interface of its own.
  lemma StatusIsAligned(s: Spec)
    ensures var ifs, st := Forced(s).interfaces, Statuses(Forced(s).interfaces);
      && |st| == |s.interfaces|
      && (forall i :: 0 <= i < |st| ==> st[i].name == ifs[i].name && st[i].podInterfaceName == "eth" + Decimal(i))
      && (forall i, j :: 0 <= i < j < |st| ==> st[i].podInterfaceName != st[j].podInterfaceName)
  {
    var st := Statuses(Forced(s).interfaces);
    forall i, j | 0 <= i < j < |st|
      ensures st[i].podInterfaceName != st[j].podInterfaceName
    {
      if st[i].podInterfaceName == st[j].podInterfaceName {
        assert Decimal(i) == st[i].podInterfaceName[3..] == Decimal(j);
        DecimalInjective(i, j);
      }
    }
  }
}

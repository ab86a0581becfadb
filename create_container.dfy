/** The body of the create-container request: the port-mapping text of the
    dialog parsed into `HostConfig.PortBindings` and `ExposedPorts`, the
    image reference tagged `latest`, and the container name as typed. */
module CreateContainer {
  import opened Text
  import opened Search

  /** One host binding of a container port: `{HostPort: "8080"}`. */
  datatype PortBinding = PortBinding(HostPort: string)

  datatype HostConfig = HostConfig(PortBindings: map<string, seq<PortBinding>>)

  /** The create body. Every key of `ExposedPorts` maps to the empty object
      `{}`, so the model keeps the keys only. */
  datatype ContainerConfig = ContainerConfig(
    name: string,
    Image: string,
    ExposedPorts: set<string>,
    HostConfig: HostConfig)

  /** The first element of `pair.split(':')`, the host side of a pair. */
  function HostPart(pair: string): string
  {
    Split(pair, ':')[0]
  }

  /** The second element of `pair.split(':')`, the container side of a
      pair; `undefined` when the pair has no `:`, which like "" is falsy
      and so is modelled as "". Pieces after the second are ignored. */
  function ContainerPart(pair: string): string
  {
    var pieces := Split(pair, ':');
    if |pieces| >= 2 then pieces[1] else ""
  }

  /** The map key of a container port, `${containerPort}/tcp`. */
  function PortKey(containerPort: string): string
  {
    containerPort + "/tcp"
  }

  /** A pair contributes a binding only when both of its sides are non-empty. */
  predicate Binds(pair: string)
  {
    HostPart(pair) != "" && ContainerPart(pair) != ""
  }

  /** A pair exposes a port when its container side alone is non-empty. */
  predicate Exposes(pair: string)
  {
    ContainerPart(pair) != ""
  }

  /** The bindings the first loop has built after the given pairs. */
  function BindingsOf(pairs: seq<string>): map<string, seq<PortBinding>>
  {
    if pairs == [] then map[]
    else
      var bindings := BindingsOf(pairs[..|pairs| - 1]);
      var pair := pairs[|pairs| - 1];
      if Binds(pair) then bindings[PortKey(ContainerPart(pair)) := [PortBinding(HostPart(pair))]]
      else bindings
  }

  /** The exposed-port keys the second loop has added after the given pairs. */
  function ExposedOf(pairs: seq<string>): set<string>
  {
    if pairs == [] then {}
    else
      var exposed := ExposedOf(pairs[..|pairs| - 1]);
      var pair := pairs[|pairs| - 1];
      if Exposes(pair) then exposed + {PortKey(ContainerPart(pair))} else exposed
  }

  /** The `PortBindings` built from the dialog's port text. */
  function PortBindingsFor(ports: string): map<string, seq<PortBinding>>
  {
    if ports == "" then map[] else BindingsOf(Split(ports, ','))
  }

  /** The `ExposedPorts` keys built from the dialog's port text. */
  function ExposedPortsFor(ports: string): set<string>
  {
    if ports == "" then {} else ExposedOf(Split(ports, ','))
  }

  /** The two loops of the submit handler, as written: the first fills the
      port bindings in place, the configuration is then assembled around
      them, and the second loop adds the exposed ports to it. */
  method BuildContainerConfig(containerName: string, image: SearchResult, ports: string)
    returns (config: ContainerConfig)
    ensures config.name == containerName
    ensures config.Image == ImageName(image) + ":latest"
    ensures config.HostConfig.PortBindings == PortBindingsFor(ports)
    ensures config.ExposedPorts == ExposedPortsFor(ports)
  {
    var portBindings: map<string, seq<PortBinding>> := map[];
    if ports != "" {
      var pairs := Split(ports, ',');
      for i := 0 to |pairs|
        invariant portBindings == BindingsOf(pairs[..i])
      {
        var hostPort, containerPort := HostPart(pairs[i]), ContainerPart(pairs[i]);
        if hostPort != "" && containerPort != "" {
          portBindings := portBindings[PortKey(containerPort) := [PortBinding(hostPort)]];
        }
        assert pairs[..i + 1][..i] == pairs[..i];
      }
      assert pairs[..|pairs|] == pairs;
    }

    var imageName := ImageName(image);
    config := ContainerConfig(containerName, imageName + ":latest", {}, HostConfig(portBindings));

    if ports != "" {
      var pairs := Split(ports, ',');
      for i := 0 to |pairs|
        invariant config.name == containerName && config.Image == imageName + ":latest"
        invariant config.HostConfig.PortBindings == portBindings
        invariant config.ExposedPorts == ExposedOf(pairs[..i])
      {
        var containerPort := ContainerPart(pairs[i]);
        if containerPort != "" {
          config := config.(ExposedPorts := config.ExposedPorts + {PortKey(containerPort)});
        }
        assert pairs[..i + 1][..i] == pairs[..i];
      }
      assert pairs[..|pairs|] == pairs;
    }
  }

  /** A key is bound exactly when some pair with both sides names its
      container port. */
  lemma {:induction false} BindingsKeys(pairs: seq<string>, key: string)
    ensures key in BindingsOf(pairs) <==>
      exists i :: 0 <= i < |pairs| && Binds(pairs[i]) && PortKey(ContainerPart(pairs[i])) == key
    decreases |pairs|
  {
    if pairs != [] {
      var init := pairs[..|pairs| - 1];
      BindingsKeys(init, key);
      if key in BindingsOf(init) {
        var i :| 0 <= i < |init| && Binds(init[i]) && PortKey(ContainerPart(init[i])) == key;
        assert pairs[i] == init[i];
      }
      if exists i :: 0 <= i < |pairs| && Binds(pairs[i]) && PortKey(ContainerPart(pairs[i])) == key {
        var i :| 0 <= i < |pairs| && Binds(pairs[i]) && PortKey(ContainerPart(pairs[i])) == key;
        if i < |init| {
          assert init[i] == pairs[i];
        }
      }
    }
  }

  /** A key is exposed exactly when some pair with a container side names it. */
  lemma {:induction false} ExposedKeys(pairs: seq<string>, key: string)
    ensures key in ExposedOf(pairs) <==>
      exists i :: 0 <= i < |pairs| && Exposes(pairs[i]) && PortKey(ContainerPart(pairs[i])) == key
    decreases |pairs|
  {
    if pairs != [] {
      var init := pairs[..|pairs| - 1];
      ExposedKeys(init, key);
      if key in ExposedOf(init) {
        var i :| 0 <= i < |init| && Exposes(init[i]) && PortKey(ContainerPart(init[i])) == key;
        assert pairs[i] == init[i];
      }
      if exists i :: 0 <= i < |pairs| && Exposes(pairs[i]) && PortKey(ContainerPart(pairs[i])) == key {
        var i :| 0 <= i < |pairs| && Exposes(pairs[i]) && PortKey(ContainerPart(pairs[i])) == key;
        if i < |init| {
          assert init[i] == pairs[i];
        }
      }
    }
  }

  /** For a repeated container port the last binding pair wins: the bound
      value is the host side of the last pair that binds that key. */
  lemma {:induction false} BindingsLastWins(pairs: seq<string>, i: nat)
    requires i < |pairs| && Binds(pairs[i])
    requires forall j :: i < j < |pairs| && Binds(pairs[j]) ==>
      PortKey(ContainerPart(pairs[j])) != PortKey(ContainerPart(pairs[i]))
    ensures PortKey(ContainerPart(pairs[i])) in BindingsOf(pairs)
    ensures BindingsOf(pairs)[PortKey(ContainerPart(pairs[i]))] == [PortBinding(HostPart(pairs[i]))]
    decreases |pairs|
  {
    var init := pairs[..|pairs| - 1];
    if i < |pairs| - 1 {
      forall j | i < j < |init| && Binds(init[j])
        ensures PortKey(ContainerPart(init[j])) != PortKey(ContainerPart(init[i]))
      {
        assert init[j] == pairs[j];
      }
      BindingsLastWins(init, i);
    }
  }

  /** Every bound value is a one-element list holding a non-empty host port
      taken from one pair. */
  lemma {:induction false} BindingValuesAreSingletons(pairs: seq<string>, key: string)
    requires key in BindingsOf(pairs)
    ensures |BindingsOf(pairs)[key]| == 1
    ensures var host := BindingsOf(pairs)[key][0].HostPort;
      host != "" && ':' !in host && exists i :: 0 <= i < |pairs| && Binds(pairs[i]) && HostPart(pairs[i]) == host
    decreases |pairs|
  {
    var init := pairs[..|pairs| - 1];
    var last := pairs[|pairs| - 1];
    if Binds(last) && PortKey(ContainerPart(last)) == key {
      assert pairs[|pairs| - 1] == last;
    } else {
      BindingValuesAreSingletons(init, key);
      var host := BindingsOf(pairs)[key][0].HostPort;
      var i :| 0 <= i < |init| && Binds(init[i]) && HostPart(init[i]) == host;
      assert pairs[i] == init[i];
    }
  }

  /** Every port that is bound is also exposed. */
  lemma BoundPortsAreExposed(ports: string)
    ensures PortBindingsFor(ports).Keys <= ExposedPortsFor(ports)
  {
    if ports != "" {
      var pairs := Split(ports, ',');
      forall key | key in BindingsOf(pairs)
        ensures key in ExposedOf(pairs)
      {
        BindingsKeys(pairs, key);
        ExposedKeys(pairs, key);
      }
    }
  }

  /** Every key, bound or exposed, is a non-empty container port followed by
      `/tcp`; the port holds neither `:` nor `,`. */
  lemma PortKeysHaveTcpForm(ports: string, key: string)
    requires key in ExposedPortsFor(ports) || key in PortBindingsFor(ports)
    ensures |key| > 4 && key[|key| - 4..] == "/tcp"
    ensures ':' !in key[..|key| - 4] && ',' !in key[..|key| - 4]
  {
    BoundPortsAreExposed(ports);
    var pairs := Split(ports, ',');
    ExposedKeys(pairs, key);
    var i :| 0 <= i < |pairs| && Exposes(pairs[i]) && PortKey(ContainerPart(pairs[i])) == key;
    var cp := ContainerPart(pairs[i]);
    assert key[..|key| - 4] == cp;
    assert ',' !in pairs[i];
    forall k | 0 <= k < |cp| ensures cp[k] != ',' {
      var pieces := Split(pairs[i], ':');
      JoinSplit(pairs[i], ':');
      assert pieces[1] == cp;
      SplitPieceIsInfix(pieces, ':', 1, k);
    }
  }

  /** A character of any piece of a join occurs in the joined string. */
  lemma {:induction false} SplitPieceIsInfix(pieces: seq<string>, sep: char, p: nat, k: nat)
    requires p < |pieces| && k < |pieces[p]|
    ensures pieces[p][k] in Join(pieces, sep)
    decreases |pieces|
  {
    if p == 0 {
      JoinStartsWithFirst(pieces, sep);
      assert Join(pieces, sep)[k] == pieces[0][k];
    } else {
      SplitPieceIsInfix(pieces[1..], sep, p - 1, k);
      assert Join(pieces, sep) == pieces[0] + [sep] + Join(pieces[1..], sep);
    }
  }

  /** "8080:80,3000:3000" splits into the pairs "8080:80" and "3000:3000". */
  lemma TwoMappingsSplit(ports: string)
    requires ports == "8080:80,3000:3000"
    ensures ports != "" && Split(ports, ',') == [ports[..7], ports[8..]]
    ensures ports[..7] == "8080:80" && ports[8..] == "3000:3000"
  {
    assert Join([ports[..7], ports[8..]], ',') == ports;
    SplitJoin([ports[..7], ports[8..]], ',');
  }

  /** "8080:80,3000:3000" binds 80/tcp to 8080 and 3000/tcp to 3000 and
      exposes exactly those two ports. */
  lemma TwoMappingsExample(ports: string)
    requires ports == "8080:80,3000:3000"
    ensures PortBindingsFor(ports) ==
      map["80/tcp" := [PortBinding("8080")], "3000/tcp" := [PortBinding("3000")]]
    ensures ExposedPortsFor(ports) == {"80/tcp", "3000/tcp"}
  {
    TwoMappingsSplit(ports);
    var p1, p2 := ports[..7], ports[8..];
    TwoPairsFold(p1, p1[..4], p1[5..], p2, p2[..4], p2[5..]);
    assert PortKey(p1[5..]) == "80/tcp" && PortKey(p2[5..]) == "3000/tcp";
    assert p1[..4] == "8080" && p2[..4] == "3000";
  }

  /** Two well-formed pairs bind and expose their two container ports. */
  lemma TwoPairsFold(p1: string, h1: string, c1: string, p2: string, h2: string, c2: string)
    requires ':' !in h1 && ':' !in c1 && p1 == h1 + ":" + c1 && h1 != "" && c1 != ""
    requires ':' !in h2 && ':' !in c2 && p2 == h2 + ":" + c2 && h2 != "" && c2 != ""
    ensures BindingsOf([p1, p2]) ==
      map[PortKey(c1) := [PortBinding(h1)]][PortKey(c2) := [PortBinding(h2)]]
    ensures ExposedOf([p1, p2]) == {PortKey(c1), PortKey(c2)}
  {
    PairPieces(p1, h1, c1);
    PairPieces(p2, h2, c2);
    assert [p1, p2][..1] == [p1] && [p1][..0] == [];
    assert BindingsOf([p1]) == map[PortKey(c1) := [PortBinding(h1)]];
    assert ExposedOf([p1]) == {PortKey(c1)};
  }

  /** `host + ":" + container`, both sides free of `:`, splits into its sides. */
  lemma PairPieces(pair: string, host: string, container: string)
    requires ':' !in host && ':' !in container && pair == host + ":" + container
    ensures HostPart(pair) == host && ContainerPart(pair) == container
  {
    assert Join([host, container], ':') == pair;
    SplitJoin([host, container], ':');
  }

  /** The asymmetry between the two loops: "8080:" and "80" add nothing at
      all, while ":80" exposes port 80 without binding it, and the empty
      text adds nothing. */
  lemma MalformedPairsExample()
    ensures PortBindingsFor("8080:") == map[] && ExposedPortsFor("8080:") == {}
    ensures PortBindingsFor("80") == map[] && ExposedPortsFor("80") == {}
    ensures PortBindingsFor(":80") == map[] && ExposedPortsFor(":80") == {"80/tcp"}
    ensures PortBindingsFor("") == map[] && ExposedPortsFor("") == {}
  {
    PairPieces("8080:", "8080", "");
    PairPieces(":80", "", "80");
    SplitWithoutSeparator("80", ':');
    SplitWithoutSeparator("8080:", ',');
    SplitWithoutSeparator("80", ',');
    SplitWithoutSeparator(":80", ',');
    assert ["8080:"][..0] == [] && ["80"][..0] == [] && [":80"][..0] == [];
    assert PortKey("80") == "80/tcp";
  }
}

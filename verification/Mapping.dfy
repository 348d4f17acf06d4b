/** Building a VM from a Proxmox configuration (proxmox/mapping.ts), and the pairing the server demands of it
    (`import` in src/extensions/proxmox.rs). */
module Mapping {
  import opened Text

  // ---- Proxmox's configuration, and the choices made of it ----

  datatype Source = Source(key: string, cdrom: bool, size: Option<nat>, importable: bool, iothread: bool)

  datatype Choice = Choice(key: string, include_: bool, bus: string)

  datatype Attach = Masquerade | Bridge | Multus(network: string) | Detached

  datatype Nic = Nic(key: string, mac: Option<string>)

  datatype NicChoice = NicChoice(key: string, attach: Attach, model: string, keepMac: bool)

  datatype Config = Config(disks: seq<Source>, nics: seq<Nic>, bootOrder: seq<string>)

  datatype Model = Model(name: string, disks: seq<Choice>, nics: seq<NicChoice>)

  /** `m.disks.find` */
  function ChoiceOf(choices: seq<Choice>, key: string): Option<Choice>
  {
    if choices == [] then None else if choices[0].key == key then Some(choices[0]) else ChoiceOf(choices[1..], key)
  }

  function NicChoiceOf(choices: seq<NicChoice>, key: string): Option<NicChoice>
  {
    if choices == [] then None else if choices[0].key == key then Some(choices[0]) else NicChoiceOf(choices[1..], key)
  }

  lemma {:induction false} ChoiceIs(choices: seq<Choice>, key: string)
    ensures ChoiceOf(choices, key).Some? ==> ChoiceOf(choices, key).value in choices && ChoiceOf(choices, key).value.key == key
  {
    if choices != [] && choices[0].key != key {
      ChoiceIs(choices[1..], key);
    }
  }

  lemma {:induction false} NicChoiceIs(choices: seq<NicChoice>, key: string)
    ensures NicChoiceOf(choices, key).Some? ==>
              NicChoiceOf(choices, key).value in choices && NicChoiceOf(choices, key).value.key == key
  {
    if choices != [] && choices[0].key != key {
      NicChoiceIs(choices[1..], key);
    }
  }

  /** A disk is copied if it was chosen, can be imported, and its size is known and not zero. */
  predicate Copies(m: Model, source: Source)
  {
    && ChoiceOf(m.disks, source.key).Some? && ChoiceOf(m.disks, source.key).value.include_
    && source.importable && source.size.Some? && source.size.value != 0
  }

  predicate Attaches(m: Model, nic: Nic)
  {
    NicChoiceOf(m.nics, nic.key).Some? && !NicChoiceOf(m.nics, nic.key).value.attach.Detached?
  }

  function DataVolumeName(m: Model, key: string): string
  {
    m.name + "-" + key
  }

  predicate Included(m: Model, key: string)
  {
    || (exists choice | choice in m.disks :: choice.include_ && choice.key == key)
    || (exists choice | choice in m.nics :: !choice.attach.Detached? && choice.key == key)
  }

  /** `new Map(keys.map((k, i) => [k, i + 1]))`: a key that comes again is numbered again. */
  function Numbered(keys: seq<string>): map<string, nat>
  {
    if keys == [] then map[] else Numbered(keys[..|keys| - 1])[keys[|keys| - 1] := |keys|]
  }

  function BootOrder(c: Config, m: Model): map<string, nat>
  {
    Numbered(Filter(key => Included(m, key), c.bootOrder))
  }

  function Lookup(order: map<string, nat>, key: string): Option<nat>
  {
    if key in order then Some(order[key]) else None
  }

  // ---- What is built ----

  datatype Disk = Disk(name: string, cdrom: bool, bus: string, bootOrder: Option<nat>, ioThread: bool)

  datatype Volume = Volume(name: string, dataVolume: string)

  datatype Interface = Interface(name: string, model: string, masquerade: bool, mac: Option<string>, bootOrder: Option<nat>)

  datatype Network = Network(name: string, multus: Option<string>)

  datatype Pair = Pair(key: string, dataVolume: string)

  datatype Built = Built(
    disks: seq<Disk>, volumes: seq<Volume>, templates: seq<string>, mapping: seq<Pair>,
    interfaces: seq<Interface>, networks: seq<Network>)

  function Copied(c: Config, m: Model): seq<Source>
  {
    Filter(source => Copies(m, source), c.disks)
  }

  function Attached(c: Config, m: Model): seq<Nic>
  {
    Filter(nic => Attaches(m, nic), c.nics)
  }

  const SATA := "sata"
  const VIRTIO := "virtio"

  function DiskOf(m: Model, order: map<string, nat>, source: Source): Disk
    requires Copies(m, source)
  {
    var d := ChoiceOf(m.disks, source.key).value;
    Disk(d.key, source.cdrom, if source.cdrom then SATA else d.bus, Lookup(order, d.key),
         source.iothread && !source.cdrom && d.bus == VIRTIO)
  }

  function InterfaceOf(m: Model, order: map<string, nat>, nic: Nic): Interface
    requires Attaches(m, nic)
  {
    var n := NicChoiceOf(m.nics, nic.key).value;
    Interface(n.key, n.model, n.attach.Masquerade?,
              if n.keepMac && nic.mac.Some? && nic.mac.value != "" then Some(Lower(nic.mac.value)) else None,
              Lookup(order, n.key))
  }

  function NetworkOf(m: Model, nic: Nic): Network
    requires Attaches(m, nic)
  {
    var n := NicChoiceOf(m.nics, nic.key).value;
    Network(n.key, if n.attach.Multus? then Some(n.attach.network) else None)
  }

  /** The k-th copied disk has the k-th place in every list of disks. */
  predicate DisksBuilt(m: Model, order: map<string, nat>, copied: seq<Source>, b: Built)
  {
    && |b.disks| == |b.volumes| == |b.templates| == |b.mapping| == |copied|
    && forall k | 0 <= k < |copied| ::
         && Copies(m, copied[k])
         && b.disks[k] == DiskOf(m, order, copied[k])
         && b.templates[k] == DataVolumeName(m, copied[k].key)
         && b.volumes[k] == Volume(copied[k].key, b.templates[k])
         && b.mapping[k] == Pair(copied[k].key, b.templates[k])
  }

  predicate NicsBuilt(m: Model, order: map<string, nat>, attached: seq<Nic>, b: Built)
  {
    && |b.interfaces| == |b.networks| == |attached|
    && forall k | 0 <= k < |attached| ::
         && Attaches(m, attached[k])
         && b.interfaces[k] == InterfaceOf(m, order, attached[k])
         && b.networks[k] == NetworkOf(m, attached[k])
  }

  predicate IsBuilt(c: Config, m: Model, b: Built)
  {
    DisksBuilt(m, BootOrder(c, m), Copied(c, m), b) && NicsBuilt(m, BootOrder(c, m), Attached(c, m), b)
  }

  lemma FilterMore<T>(p: T -> bool, s: seq<T>, k: nat)
    requires k < |s|
    ensures Filter(p, s[..k + 1]) == Filter(p, s[..k]) + if p(s[k]) then [s[k]] else []
  {
    assert s[..k + 1] == s[..k] + [s[k]];
    FilterAppend(p, s[..k], [s[k]]);
    assert [s[k]][1..] == [];
  }

  lemma {:induction false} FilterAll<T(!new)>(p: T -> bool, s: seq<T>)
    requires forall x | x in s :: p(x)
    ensures Filter(p, s) == s
  {
    if s != [] {
      FilterAll(p, s[1..]);
      assert s == [s[0]] + s[1..];
    }
  }

  /** `bootOrder`, as the code numbers it. */
  method NumberBootOrder(c: Config, m: Model) returns (order: map<string, nat>)
    ensures order == BootOrder(c, m)
  {
    order := map[];
    var at := 0;
    ghost var p := (key: string) => Included(m, key);
    ghost var kept: seq<string> := [];
    for i := 0 to |c.bootOrder|
      invariant kept == Filter(p, c.bootOrder[..i]) && at == |kept| && order == Numbered(kept)
    {
      FilterMore(p, c.bootOrder, i);
      if Included(m, c.bootOrder[i]) {
        assert (kept + [c.bootOrder[i]])[..|kept|] == kept;
        kept := kept + [c.bootOrder[i]];
        at := at + 1;
        order := order[c.bootOrder[i] := at];
      }
    }
    assert c.bootOrder[..|c.bootOrder|] == c.bootOrder;
  }

  method BuildDisks(c: Config, m: Model, order: map<string, nat>) returns (b: Built)
    ensures DisksBuilt(m, order, Copied(c, m), b)
  {
    b := Built([], [], [], [], [], []);
    ghost var p := (source: Source) => Copies(m, source);
    for i := 0 to |c.disks|
      invariant DisksBuilt(m, order, Filter(p, c.disks[..i]), b)
    {
      var source := c.disks[i];
      FilterMore(p, c.disks, i);
      ChoiceIs(m.disks, source.key);
      var d := ChoiceOf(m.disks, source.key);
      if d.None? || !d.value.include_ || !source.importable || source.size.None? || source.size.value == 0 {
        continue;
      }
      var dv := DataVolumeName(m, d.value.key);
      var entry := Disk(d.value.key, source.cdrom, if source.cdrom then SATA else d.value.bus, None, false);
      if d.value.key in order {
        entry := entry.(bootOrder := Some(order[d.value.key]));
      }
      if source.iothread && !source.cdrom && d.value.bus == VIRTIO {
        entry := entry.(ioThread := true);
      }
      b := b.(disks := b.disks + [entry], volumes := b.volumes + [Volume(d.value.key, dv)], templates := b.templates + [dv],
              mapping := b.mapping + [Pair(d.value.key, dv)]);
    }
    assert c.disks[..|c.disks|] == c.disks;
  }

  method BuildNics(c: Config, m: Model, order: map<string, nat>, before: Built) returns (b: Built)
    requires before.interfaces == [] && before.networks == []
    ensures NicsBuilt(m, order, Attached(c, m), b)
    ensures b == before.(interfaces := b.interfaces, networks := b.networks)
  {
    b := before;
    ghost var p := (nic: Nic) => Attaches(m, nic);
    for i := 0 to |c.nics|
      invariant NicsBuilt(m, order, Filter(p, c.nics[..i]), b)
      invariant b == before.(interfaces := b.interfaces, networks := b.networks)
    {
      var source := c.nics[i];
      FilterMore(p, c.nics, i);
      var n := NicChoiceOf(m.nics, source.key);
      if n.None? || n.value.attach.Detached? {
        continue;
      }
      var iface := Interface(n.value.key, n.value.model, n.value.attach.Masquerade?, None, None);
      if n.value.keepMac && source.mac.Some? && source.mac.value != "" {
        iface := iface.(mac := Some(Lower(source.mac.value)));
      }
      if n.value.key in order {
        iface := iface.(bootOrder := Some(order[n.value.key]));
      }
      var network := if n.value.attach.Multus? then Network(n.value.key, Some(n.value.attach.network)) else Network(n.value.key, None);
      b := b.(interfaces := b.interfaces + [iface], networks := b.networks + [network]);
    }
    assert c.nics[..|c.nics|] == c.nics;
  }

  /** `buildImport`: its disks and networks. */
  method BuildImport(c: Config, m: Model) returns (b: Built)
    ensures IsBuilt(c, m, b)
  {
    var order := NumberBootOrder(c, m);
    var disks := BuildDisks(c, m, order);
    b := BuildNics(c, m, order, disks.(interfaces := [], networks := []));
  }

  // ---- One to one ----

  predicate Distinct<T(==)>(s: seq<T>)
  {
    forall i, j | 0 <= i < j < |s| :: s[i] != s[j]
  }

  function Keys<T>(key: T -> string, s: seq<T>): (keys: seq<string>)
    ensures |keys| == |s| && forall i | 0 <= i < |s| :: keys[i] == key(s[i])
  {
    seq(|s|, i requires 0 <= i < |s| => key(s[i]))
  }

  lemma {:induction false} FilterKeepsDistinct<T(!new)>(key: T -> string, p: T -> bool, s: seq<T>)
    requires Distinct(Keys(key, s))
    ensures Distinct(Keys(key, Filter(p, s)))
  {
    if s != [] {
      var rest, kept := s[1..], Filter(p, s[1..]);
      assert forall i | 0 <= i < |rest| :: Keys(key, rest)[i] == Keys(key, s)[i + 1];
      FilterKeepsDistinct(key, p, rest);
      FilterMembers(p, rest);
      if p(s[0]) {
        forall i, j | 0 <= i < j < |Filter(p, s)| ensures Keys(key, Filter(p, s))[i] != Keys(key, Filter(p, s))[j] {
          if i == 0 {
            var x := kept[j - 1];
            assert x in Filter(p, rest);
            assert x in rest;
            var k :| 0 <= k < |rest| && rest[k] == x;
            assert Keys(key, s)[0] != Keys(key, s)[k + 1];
          } else {
            assert Keys(key, kept)[i - 1] != Keys(key, kept)[j - 1];
          }
        }
      }
    }
  }

  lemma SameTail(prefix: string, a: string, b: string)
    ensures prefix + a == prefix + b ==> a == b
  {
    assert a == (prefix + a)[|prefix|..];
    assert b == (prefix + b)[|prefix|..];
  }

  lemma NamesDiffer(m: Model, a: string, b: string)
    requires a != b
    ensures DataVolumeName(m, a) != DataVolumeName(m, b)
  {
    SameTail(m.name + "-", a, b);
  }

  function DiskKeys(c: Config): seq<string> { Keys((d: Source) => d.key, c.disks) }

  function NicKeys(c: Config): seq<string> { Keys((n: Nic) => n.key, c.nics) }

  /** Disks, volumes, templates and the mapping are one to one, by place and by name; so are interfaces and networks. */
  lemma OneToOne(c: Config, m: Model, b: Built)
    requires IsBuilt(c, m, b) && Distinct(DiskKeys(c)) && Distinct(NicKeys(c))
    ensures |b.disks| == |b.volumes| == |b.templates| == |b.mapping| && |b.interfaces| == |b.networks|
    ensures forall k | 0 <= k < |b.disks| ::
              b.disks[k].name == b.volumes[k].name == b.mapping[k].key
              && b.volumes[k].dataVolume == b.templates[k] == b.mapping[k].dataVolume
    ensures forall k | 0 <= k < |b.interfaces| :: b.interfaces[k].name == b.networks[k].name
    ensures forall i, j | 0 <= i < j < |b.disks| :: b.disks[i].name != b.disks[j].name && b.templates[i] != b.templates[j]
    ensures forall i, j | 0 <= i < j < |b.interfaces| :: b.interfaces[i].name != b.interfaces[j].name
  {
    var copied, attached := Copied(c, m), Attached(c, m);
    FilterKeepsDistinct((d: Source) => d.key, source => Copies(m, source), c.disks);
    FilterKeepsDistinct((n: Nic) => n.key, nic => Attaches(m, nic), c.nics);
    forall k | 0 <= k < |copied| ensures b.disks[k].name == copied[k].key { ChoiceIs(m.disks, copied[k].key); }
    forall k | 0 <= k < |attached| ensures b.interfaces[k].name == attached[k].key { NicChoiceIs(m.nics, attached[k].key); }
    forall i, j | 0 <= i < j < |b.disks| ensures b.disks[i].name != b.disks[j].name && b.templates[i] != b.templates[j] {
      assert Keys((d: Source) => d.key, copied)[i] != Keys((d: Source) => d.key, copied)[j];
      NamesDiffer(m, copied[i].key, copied[j].key);
    }
    forall i, j | 0 <= i < j < |b.interfaces| ensures b.interfaces[i].name != b.interfaces[j].name {
      assert Keys((n: Nic) => n.key, attached)[i] != Keys((n: Nic) => n.key, attached)[j];
    }
  }

  // ---- What was chosen is what is built ----

  lemma {:induction false} ChoiceFound(choices: seq<Choice>, choice: Choice)
    requires choice in choices && forall other | other in choices && other.key == choice.key :: other == choice
    ensures ChoiceOf(choices, choice.key) == Some(choice)
  {
    if choices[0].key != choice.key {
      ChoiceFound(choices[1..], choice);
    } else {
      assert choices[0] in choices;
    }
  }

  lemma {:induction false} NicChoiceFound(choices: seq<NicChoice>, choice: NicChoice)
    requires choice in choices && forall other | other in choices && other.key == choice.key :: other == choice
    ensures NicChoiceOf(choices, choice.key) == Some(choice)
  {
    if choices[0].key != choice.key {
      NicChoiceFound(choices[1..], choice);
    } else {
      assert choices[0] in choices;
    }
  }

  /** At place `k`: a CD-ROM on SATA, another disk on the bus chosen, with its own I/O thread only on virtio; and everything
      that goes with it under the same names. */
  predicate DiskAt(m: Model, b: Built, source: Source, choice: Choice, k: nat)
  {
    k < |b.disks| == |b.volumes| == |b.templates| == |b.mapping| &&
    var dataVolume := m.name + "-" + source.key;
    && b.disks[k].name == source.key && b.disks[k].cdrom == source.cdrom
    && b.disks[k].bus == (if source.cdrom then "sata" else choice.bus)
    && (b.disks[k].ioThread <==> source.iothread && !source.cdrom && choice.bus == "virtio")
    && b.volumes[k] == Volume(source.key, dataVolume) && b.templates[k] == dataVolume
    && b.mapping[k] == Pair(source.key, dataVolume)
  }

  /** At place `k`: masqueraded or bridged on the network chosen, with Proxmox's MAC, in lower case, if it is to be kept. */
  predicate NicAt(b: Built, nic: Nic, choice: NicChoice, k: nat)
  {
    k < |b.interfaces| == |b.networks|
    && b.interfaces[k].name == nic.key && b.networks[k].name == nic.key && b.interfaces[k].model == choice.model
    && (b.interfaces[k].masquerade <==> choice.attach == Masquerade)
    && (match choice.attach
        case Multus(network) => b.networks[k].multus == Some(network)
        case _ => b.networks[k].multus == None)
    && b.interfaces[k].mac ==
         if choice.keepMac && nic.mac.Some? && nic.mac.value != "" then Some(Lower(nic.mac.value)) else None
  }

  lemma SameSource(sources: seq<Source>, a: Source, b: Source)
    requires Distinct(Keys((d: Source) => d.key, sources)) && a in sources && b in sources && a.key == b.key
    ensures a == b
  {
    var keys := Keys((d: Source) => d.key, sources);
    var i :| 0 <= i < |sources| && sources[i] == a;
    var j :| 0 <= j < |sources| && sources[j] == b;
    assert keys[i] == keys[j];
  }

  lemma SameNic(nics: seq<Nic>, a: Nic, b: Nic)
    requires Distinct(Keys((n: Nic) => n.key, nics)) && a in nics && b in nics && a.key == b.key
    ensures a == b
  {
    var keys := Keys((n: Nic) => n.key, nics);
    var i :| 0 <= i < |nics| && nics[i] == a;
    var j :| 0 <= j < |nics| && nics[j] == b;
    assert keys[i] == keys[j];
  }

  /** A disk is built, as chosen, if and only if it was chosen, can be imported and has a size. */
  lemma DisksAsChosen(c: Config, m: Model, b: Built, source: Source, choice: Choice)
    requires IsBuilt(c, m, b) && Distinct(Keys((d: Source) => d.key, c.disks)) && source in c.disks
    requires choice in m.disks && choice.key == source.key
    requires forall other | other in m.disks && other.key == choice.key :: other == choice
    ensures (exists k: nat :: DiskAt(m, b, source, choice, k)) <==>
            choice.include_ && source.importable && source.size.Some? && source.size.value > 0
  {
    var p := (s: Source) => Copies(m, s);
    var copied := Copied(c, m);
    FilterMembers(p, c.disks);
    ChoiceFound(m.disks, choice);
    if k: nat :| DiskAt(m, b, source, choice, k) {
      ChoiceIs(m.disks, copied[k].key);
      assert copied[k] in copied && copied[k] in c.disks;
      SameSource(c.disks, copied[k], source);
    }
    if Copies(m, source) {
      assert source in copied;
      var k: nat :| k < |copied| && copied[k] == source;
      assert DiskAt(m, b, source, choice, k);
    }
  }

  lemma NicsAsChosen(c: Config, m: Model, b: Built, nic: Nic, choice: NicChoice)
    requires IsBuilt(c, m, b) && Distinct(Keys((n: Nic) => n.key, c.nics)) && nic in c.nics
    requires choice in m.nics && choice.key == nic.key
    requires forall other | other in m.nics && other.key == choice.key :: other == choice
    ensures (exists k: nat :: NicAt(b, nic, choice, k)) <==> choice.attach != Detached
  {
    var p := (n: Nic) => Attaches(m, n);
    var attached := Attached(c, m);
    FilterMembers(p, c.nics);
    NicChoiceFound(m.nics, choice);
    if k: nat :| NicAt(b, nic, choice, k) {
      NicChoiceIs(m.nics, attached[k].key);
      assert attached[k] in attached && attached[k] in c.nics;
      SameNic(c.nics, attached[k], nic);
    }
    if Attaches(m, nic) {
      assert nic in attached;
      var k: nat :| k < |attached| && attached[k] == nic;
      assert NicAt(b, nic, choice, k);
    }
  }

  // ---- The server's checks ----

  /** `valid_segment` */
  predicate ValidSegment(s: string)
  {
    0 < |s| <= 253 && s != "." && s != ".." && forall i | 0 <= i < |s| :: SegmentChar(s[i])
  }

  predicate SegmentChar(c: char)
  {
    || 'a' <= c <= 'z' || 'A' <= c <= 'Z' || '0' <= c <= '9'
    || c == '-' || c == '.' || c == '_' || c == ':' || c == '@' || c == '+'
  }

  datatype Refusal = BadName(name: string) | Twice(key: string) | NoTemplate(key: string) | Orphan(dataVolume: string)

  predicate Paired(templates: seq<string>, disks: seq<Pair>)
  {
    && (forall i | 0 <= i < |templates| :: ValidSegment(templates[i]))
    && (forall i, j | 0 <= i < j < |disks| :: disks[i].key != disks[j].key)
    && (forall i | 0 <= i < |disks| :: disks[i].dataVolume in templates)
    && (forall i | 0 <= i < |templates| :: IsFilled(disks, templates[i]))
  }

  predicate IsFilled(disks: seq<Pair>, dataVolume: string)
  {
    exists j | 0 <= j < |disks| :: disks[j].dataVolume == dataVolume
  }

  /** The server's three loops: names, then disks against templates, then templates against disks. */
  method CheckPairing(templates: seq<string>, disks: seq<Pair>) returns (refusal: Option<Refusal>)
    ensures refusal.None? <==> Paired(templates, disks)
  {
    var expected: seq<string> := [];
    for i := 0 to |templates|
      invariant expected == templates[..i] && forall k | 0 <= k < i :: ValidSegment(templates[k])
    {
      if !ValidSegment(templates[i]) {
        return Some(BadName(templates[i]));
      }
      expected := expected + [templates[i]];
    }
    assert expected == templates;
    var seen: seq<string> := [];
    for i := 0 to |disks|
      invariant |seen| == i && (forall k | 0 <= k < i :: seen[k] == disks[k].key)
      invariant forall k, l | 0 <= k < l < i :: disks[k].key != disks[l].key
      invariant forall k | 0 <= k < i :: disks[k].dataVolume in templates
    {
      if disks[i].key in seen {
        assert exists k | 0 <= k < i :: seen[k] == disks[i].key;
        return Some(Twice(disks[i].key));
      }
      seen := seen + [disks[i].key];
      if disks[i].dataVolume !in expected {
        return Some(NoTemplate(disks[i].key));
      }
    }
    for i := 0 to |expected|
      invariant forall k | 0 <= k < i :: IsFilled(disks, templates[k])
    {
      if !IsFilled(disks, expected[i]) {
        return Some(Orphan(expected[i]));
      }
    }
    assert forall i | 0 <= i < |templates| :: ValidSegment(templates[i]);
    assert forall i, j | 0 <= i < j < |disks| :: disks[i].key != disks[j].key;
    assert forall i | 0 <= i < |templates| :: IsFilled(disks, templates[i]);
    refusal := None;
  }

  /** What `buildImport` builds passes the server's checks, exactly if the names it makes can be names. */
  lemma BuiltIsPaired(c: Config, m: Model, b: Built)
    requires IsBuilt(c, m, b) && Distinct(DiskKeys(c))
    ensures Paired(b.templates, b.mapping) <==> forall k | 0 <= k < |b.templates| :: ValidSegment(b.templates[k])
  {
    var copied := Copied(c, m);
    FilterKeepsDistinct((d: Source) => d.key, source => Copies(m, source), c.disks);
    forall i, j | 0 <= i < j < |b.mapping| ensures b.mapping[i].key != b.mapping[j].key {
      assert Keys((d: Source) => d.key, copied)[i] != Keys((d: Source) => d.key, copied)[j];
    }
    forall i | 0 <= i < |b.templates|
      ensures b.mapping[i].dataVolume in b.templates && IsFilled(b.mapping, b.templates[i])
    {
      assert b.mapping[i].dataVolume == b.templates[i];
    }
  }

  /** A VM's name and a disk's key that are fit for names make one, if it is not too long. */
  lemma NameIsValid(m: Model, key: string)
    requires ValidSegment(m.name) && |m.name| + 1 + |key| <= 253 && forall i | 0 <= i < |key| :: SegmentChar(key[i])
    ensures ValidSegment(DataVolumeName(m, key))
  {
    var name := DataVolumeName(m, key);
    assert name[|m.name|] == '-';
    forall i | 0 <= i < |name| ensures SegmentChar(name[i]) {
      if i < |m.name| {
        assert name[i] == m.name[i];
      } else if i > |m.name| {
        assert name[i] == key[i - |m.name| - 1];
      }
    }
  }

  // ---- Boot order ----

  lemma {:induction false} NumberedIs(keys: seq<string>)
    ensures forall k :: k in Numbered(keys) <==> k in keys
    ensures forall k | k in keys :: 1 <= Numbered(keys)[k] <= |keys| && keys[Numbered(keys)[k] - 1] == k
    ensures forall k, i | k in keys && Numbered(keys)[k] <= i < |keys| :: keys[i] != k
  {
    if keys != [] {
      NumberedIs(keys[..|keys| - 1]);
      assert keys == keys[..|keys| - 1] + [keys[|keys| - 1]];
    }
  }

  function First(s: seq<string>, key: string): (i: nat)
    requires key in s
    ensures i < |s| && s[i] == key && forall k | 0 <= k < i :: s[k] != key
  {
    if s[0] == key then 0 else 1 + First(s[1..], key)
  }

  function Last(s: seq<string>, key: string): (i: nat)
    requires key in s
    ensures i < |s| && s[i] == key && forall k | i < k < |s| :: s[k] != key
  {
    if s[|s| - 1] == key then |s| - 1 else Last(s[..|s| - 1], key)
  }

  /** Leaving keys out does not change which of two others comes last. */
  lemma {:induction false} FilterKeepsLast(p: string -> bool, s: seq<string>, x: string, y: string)
    requires x in s && y in s && p(x) && p(y) && x != y
    ensures x in Filter(p, s) && y in Filter(p, s)
    ensures Last(Filter(p, s), x) < Last(Filter(p, s), y) <==> Last(s, x) < Last(s, y)
  {
    FilterMembers(p, s);
    var init, z := s[..|s| - 1], s[|s| - 1];
    FilterMore(p, s, |s| - 1);
    assert s[..|s| - 1 + 1] == s;
    var kept := Filter(p, init);
    if z != x && z != y {
      FilterKeepsLast(p, init, x, y);
      if p(z) {
        assert Filter(p, s) == kept + [z] && (kept + [z])[..|kept|] == kept;
      } else {
        assert Filter(p, s) == kept + [] == kept;
      }
    } else {
      assert Filter(p, s) == kept + [z];
    }
  }

  /** No two keys share a place. */
  lemma OrdersDiffer(c: Config, m: Model, a: string, b: string)
    requires a != b && a in BootOrder(c, m) && b in BootOrder(c, m)
    ensures BootOrder(c, m)[a] != BootOrder(c, m)[b]
  {
    NumberedIs(Filter(key => Included(m, key), c.bootOrder));
  }

  datatype Device = Drive(k: nat) | Card(k: nat)

  predicate Exists(b: Built, d: Device)
  {
    match d case Drive(k) => k < |b.disks| case Card(k) => k < |b.interfaces|
  }

  function NameOf(b: Built, d: Device): string
    requires Exists(b, d)
  {
    match d case Drive(k) => b.disks[k].name case Card(k) => b.interfaces[k].name
  }

  function PlaceOf(b: Built, d: Device): Option<nat>
    requires Exists(b, d)
  {
    match d case Drive(k) => b.disks[k].bootOrder case Card(k) => b.interfaces[k].bootOrder
  }

  /** What is built is numbered as the boot order says, and only what Proxmox boots from is numbered. */
  lemma PlaceIs(c: Config, m: Model, b: Built, d: Device)
    requires IsBuilt(c, m, b) && Exists(b, d)
    ensures PlaceOf(b, d) == Lookup(BootOrder(c, m), NameOf(b, d))
    ensures Included(m, NameOf(b, d))
    ensures PlaceOf(b, d).Some? <==> NameOf(b, d) in c.bootOrder
  {
    var p := (key: string) => Included(m, key);
    match d {
      case Drive(k) => ChoiceIs(m.disks, Copied(c, m)[k].key);
      case Card(k) => NicChoiceIs(m.nics, Attached(c, m)[k].key);
    }
    FilterMembers(p, c.bootOrder);
    NumberedIs(Filter(p, c.bootOrder));
  }

  /** The boot orders of all disks and interfaces are distinct, and of two devices the one whose last place in Proxmox's
      list comes first is numbered first. */
  lemma LastPlaceDecides(c: Config, m: Model, b: Built, x: Device, y: Device)
    requires IsBuilt(c, m, b) && Exists(b, x) && Exists(b, y) && NameOf(b, x) != NameOf(b, y)
    requires PlaceOf(b, x).Some? && PlaceOf(b, y).Some?
    ensures NameOf(b, x) in c.bootOrder && NameOf(b, y) in c.bootOrder
    ensures PlaceOf(b, x) != PlaceOf(b, y)
    ensures PlaceOf(b, x).value < PlaceOf(b, y).value <==> Last(c.bootOrder, NameOf(b, x)) < Last(c.bootOrder, NameOf(b, y))
  {
    PlaceIs(c, m, b, x);
    PlaceIs(c, m, b, y);
    OrdersDiffer(c, m, NameOf(b, x), NameOf(b, y));
    var p := (key: string) => Included(m, key);
    FilterKeepsLast(p, c.bootOrder, NameOf(b, x), NameOf(b, y));
    NumberedIs(Filter(p, c.bootOrder));
  }

  predicate Before(s: seq<string>, x: string, y: string)
    requires x in s && y in s
  {
    First(s, x) < First(s, y)
  }

  /** The devices that are numbered are numbered as Proxmox tries them: by their first places in its list. */
  ghost predicate InOrder(c: Config, b: Built)
    requires forall x | Exists(b, x) && PlaceOf(b, x).Some? :: NameOf(b, x) in c.bootOrder
  {
    forall x, y | Exists(b, x) && Exists(b, y) && PlaceOf(b, x).Some? && PlaceOf(b, y).Some? && NameOf(b, x) != NameOf(b, y) ::
      PlaceOf(b, x).value < PlaceOf(b, y).value <==> Before(c.bootOrder, NameOf(b, x), NameOf(b, y))
  }

  predicate IsDevice(c: Config, m: Model, key: string)
  {
    || (exists source | source in c.disks :: Copies(m, source) && source.key == key)
    || (exists nic | nic in c.nics :: Attaches(m, nic) && nic.key == key)
  }

  /** Among the devices of the VM, repeats in Proxmox's list put no device's last place on the other side of another's
      than its first. */
  predicate RepeatsAgree(c: Config, m: Model)
  {
    forall x, y | x in c.bootOrder && y in c.bootOrder && IsDevice(c, m, x) && IsDevice(c, m, y) && x != y ::
      Before(c.bootOrder, x, y) <==> Last(c.bootOrder, x) < Last(c.bootOrder, y)
  }

  lemma DevicesAre(c: Config, m: Model, b: Built, key: string)
    requires IsBuilt(c, m, b)
    ensures IsDevice(c, m, key) <==> exists d :: Exists(b, d) && NameOf(b, d) == key
  {
    FilterMembers(source => Copies(m, source), c.disks);
    FilterMembers(nic => Attaches(m, nic), c.nics);
    var copied, attached := Copied(c, m), Attached(c, m);
    forall d | Exists(b, d) ensures IsDevice(c, m, NameOf(b, d)) {
      match d
      case Drive(k) => ChoiceIs(m.disks, copied[k].key); assert copied[k] in copied;
      case Card(k) => NicChoiceIs(m.nics, attached[k].key); assert attached[k] in attached;
    }
    if source :| source in c.disks && Copies(m, source) && source.key == key {
      var k :| 0 <= k < |copied| && copied[k] == source;
      ChoiceIs(m.disks, key);
      assert NameOf(b, Drive(k)) == key;
    } else if nic :| nic in c.nics && Attaches(m, nic) && nic.key == key {
      var k :| 0 <= k < |attached| && attached[k] == nic;
      NicChoiceIs(m.nics, key);
      assert NameOf(b, Card(k)) == key;
    }
  }

  /** Proxmox's order is kept exactly if the repeats in its list do not get in its way. */
  lemma BootOrderKept(c: Config, m: Model, b: Built)
    requires IsBuilt(c, m, b)
    ensures forall x | Exists(b, x) && PlaceOf(b, x).Some? :: NameOf(b, x) in c.bootOrder
    ensures InOrder(c, b) <==> RepeatsAgree(c, m)
    ensures Distinct(c.bootOrder) ==> RepeatsAgree(c, m)
  {
    forall x | Exists(b, x) ensures PlaceOf(b, x).Some? <==> NameOf(b, x) in c.bootOrder { PlaceIs(c, m, b, x); }
    forall x, y | Exists(b, x) && Exists(b, y) && PlaceOf(b, x).Some? && PlaceOf(b, y).Some? && NameOf(b, x) != NameOf(b, y)
      ensures PlaceOf(b, x).value < PlaceOf(b, y).value
         <==> Last(c.bootOrder, NameOf(b, x)) < Last(c.bootOrder, NameOf(b, y))
    {
      LastPlaceDecides(c, m, b, x, y);
    }
    forall key ensures IsDevice(c, m, key) <==> exists d :: Exists(b, d) && NameOf(b, d) == key { DevicesAre(c, m, b, key); }
    assert Distinct(c.bootOrder) ==> forall x | x in c.bootOrder :: First(c.bootOrder, x) == Last(c.bootOrder, x);
  }

  // A configuration that boots from one disk, another, and the first again.
  const FIRST := Source("scsi0", false, Some(1), true, false)
  const SECOND := Source("scsi1", false, Some(1), true, false)
  const REPEATING := Config([FIRST, SECOND], [], ["scsi0", "scsi1", "scsi0"])
  const BOTH := Model("vm", [Choice("scsi0", true, VIRTIO), Choice("scsi1", true, VIRTIO)], [])

  lemma RepeatingNumbers()
    ensures BootOrder(REPEATING, BOTH) == map["scsi0" := 3, "scsi1" := 2]
  {
    var order := REPEATING.bootOrder;
    assert BOTH.disks[0] in BOTH.disks && BOTH.disks[1] in BOTH.disks;
    FilterAll(key => Included(BOTH, key), order);
    assert order[..2] == ["scsi0", "scsi1"] && order[..2][..1] == ["scsi0"] && order[..1][..0] == [];
    assert Numbered(["scsi0"]) == map["scsi0" := 1] && Numbered(order[..2]) == map["scsi0" := 1, "scsi1" := 2];
    assert Numbered(order) == map["scsi0" := 3, "scsi1" := 2];
  }

  lemma RepeatingCopied()
    ensures Copied(REPEATING, BOTH) == [FIRST, SECOND]
    ensures ChoiceOf(BOTH.disks, FIRST.key) == Some(BOTH.disks[0])
    ensures ChoiceOf(BOTH.disks, SECOND.key) == Some(BOTH.disks[1])
  {
    assert FIRST.key == BOTH.disks[0].key && SECOND.key == BOTH.disks[1].key && BOTH.disks[1..][0] == BOTH.disks[1];
    assert Copies(BOTH, FIRST) && Copies(BOTH, SECOND);
    FilterAll(source => Copies(BOTH, source), REPEATING.disks);
  }

  /** Its first disk is numbered after the second. */
  lemma RepeatsReorder(b: Built)
    requires IsBuilt(REPEATING, BOTH, b)
    ensures |b.disks| == 2 && b.disks[0].name == "scsi0" && b.disks[1].name == "scsi1"
    ensures b.disks[0].bootOrder == Some(3) && b.disks[1].bootOrder == Some(2)
  {
    RepeatingNumbers();
    RepeatingCopied();
  }
}

/** JSON values, the merge patch of RFC 7396 section 2, and the patches the VM screens build (vm/spec.ts). */
module JsonPatch {
  import opened Text

  datatype Json = Null | Str(text: string) | Num(number: int) | Arr(items: seq<Json>) | Obj(fields: map<string, Json>)

  function Fields(value: Json): map<string, Json>
  {
    if value.Obj? then value.fields else map[]
  }

  /** `MergePatch(Target, Patch)` */
  function Merge(target: Json, patch: Json): Json
    decreases patch
  {
    if !patch.Obj? then patch else
    var t := Fields(target);
    Obj(map k | k in t.Keys + patch.fields.Keys && !(k in patch.fields && patch.fields[k].Null?) ::
          if k in patch.fields then Merge(if k in t then t[k] else Null, patch.fields[k]) else t[k])
  }

  type Path = seq<string>

  /** The value at a path, if every step of it is there. */
  function At(value: Json, path: Path): Option<Json>
  {
    if path == [] then Some(value)
    else if path[0] in Fields(value) then At(value.fields[path[0]], path[1..])
    else None
  }

  /** The patch says nothing about what is at this path: it leaves the path before its end. */
  predicate Silent(patch: Json, path: Path)
  {
    patch.Obj? && path != [] && (path[0] !in patch.fields || Silent(patch.fields[path[0]], path[1..]))
  }

  lemma {:induction false} SilentKeeps(target: Json, patch: Json, path: Path)
    requires Silent(patch, path)
    ensures At(Merge(target, patch), path) == At(target, path)
    decreases path
  {
    var t, key := Fields(target), path[0];
    if key in patch.fields {
      var inner := if key in t then t[key] else Null;
      SilentKeeps(inner, patch.fields[key], path[1..]);
    }
  }

  /** Where the patch has a value other than an object or null, that is what the result has. */
  lemma {:induction false} SaysIsSet(target: Json, patch: Json, path: Path)
    requires At(patch, path).Some? && !At(patch, path).value.Obj? && !At(patch, path).value.Null?
    ensures At(Merge(target, patch), path) == At(patch, path)
    decreases path
  {
    if path != [] {
      var t, key := Fields(target), path[0];
      SaysIsSet(if key in t then t[key] else Null, patch.fields[key], path[1..]);
    }
  }

  /** Where it has null, nothing is left. */
  lemma {:induction false} NullRemoves(target: Json, patch: Json, path: Path)
    requires path != [] && At(patch, path) == Some(Null)
    ensures At(Merge(target, patch), path).None?
    decreases path
  {
    var t, key := Fields(target), path[0];
    if |path| > 1 {
      NullRemoves(if key in t then t[key] else Null, patch.fields[key], path[1..]);
    } else {
      assert path[1..] == [];
    }
  }

  /** Where it has an object, the result has one. */
  lemma {:induction false} ObjectStays(target: Json, patch: Json, path: Path)
    requires At(patch, path).Some? && At(patch, path).value.Obj?
    ensures At(Merge(target, patch), path).Some? && At(Merge(target, patch), path).value.Obj?
    decreases path
  {
    if path != [] {
      var t, key := Fields(target), path[0];
      ObjectStays(if key in t then t[key] else Null, patch.fields[key], path[1..]);
    }
  }

  /** Merging the same patch again changes nothing. */
  lemma {:induction false} MergeTwice(target: Json, patch: Json)
    ensures Merge(Merge(target, patch), patch) == Merge(target, patch)
    decreases patch
  {
    if patch.Obj? {
      var once := Merge(target, patch);
      var twice := Merge(once, patch);
      assert twice.fields.Keys == once.fields.Keys;
      forall k | k in once.fields ensures twice.fields[k] == once.fields[k] {
        if k in patch.fields {
          var t := Fields(target);
          MergeTwice(if k in t then t[k] else Null, patch.fields[k]);
        }
      }
      assert twice.fields == once.fields;
    }
  }

  function One(key: string, value: Json): Json
  {
    Obj(map[key := value])
  }

  // ---- `devicesPatch` ----

  datatype Lists = Lists(
    disks: Option<seq<Json>>, interfaces: Option<seq<Json>>, volumes: Option<seq<Json>>, networks: Option<seq<Json>>,
    dataVolumeTemplates: Option<seq<Json>>)

  function Put(fields: map<string, Json>, key: string, list: Option<seq<Json>>): map<string, Json>
  {
    if list.Some? then fields[key := Arr(list.value)] else fields
  }

  function DevicesPatch(lists: Lists): Json
  {
    One("spec", Obj(Put(map["template" := One("spec", Obj(Spec(lists)))], "dataVolumeTemplates", lists.dataVolumeTemplates)))
  }

  const DISKS: Path := ["spec", "template", "spec", "domain", "devices", "disks"]
  const INTERFACES: Path := ["spec", "template", "spec", "domain", "devices", "interfaces"]
  const VOLUMES: Path := ["spec", "template", "spec", "volumes"]
  const NETWORKS: Path := ["spec", "template", "spec", "networks"]
  const TEMPLATES: Path := ["spec", "dataVolumeTemplates"]

  /** One lies on the way to the other. */
  predicate Meets(a: Path, b: Path)
  {
    a <= b || b <= a
  }

  /** The path has nothing to do with the lists that are given. */
  predicate Apart(lists: Lists, path: Path)
  {
    && !(path <= ["spec", "template", "spec"])
    && (lists.disks.Some? ==> !Meets(path, DISKS))
    && (lists.interfaces.Some? ==> !Meets(path, INTERFACES))
    && (lists.volumes.Some? ==> !Meets(path, VOLUMES))
    && (lists.networks.Some? ==> !Meets(path, NETWORKS))
    && (lists.dataVolumeTemplates.Some? ==> !Meets(path, TEMPLATES))
  }

  function Devices(lists: Lists): map<string, Json>
  {
    Put(Put(map[], "disks", lists.disks), "interfaces", lists.interfaces)
  }

  function Spec(lists: Lists): map<string, Json>
  {
    var domain: map<string, Json> := if Devices(lists) == map[] then map[] else map["domain" := One("devices", Obj(Devices(lists)))];
    Put(Put(domain, "volumes", lists.volumes), "networks", lists.networks)
  }

  lemma DevicesSilent(lists: Lists, rest: Path)
    requires rest != [] && (lists.disks.Some? ==> rest[0] != "disks") && (lists.interfaces.Some? ==> rest[0] != "interfaces")
    ensures Silent(Obj(Devices(lists)), rest)
  {
  }

  lemma SpecSilent(lists: Lists, rest: Path)
    requires rest != []
    requires lists.volumes.Some? ==> rest[0] != "volumes"
    requires lists.networks.Some? ==> rest[0] != "networks"
    requires (lists.disks.Some? || lists.interfaces.Some?) && rest[0] == "domain" ==>
               |rest| > 1 && (rest[1] == "devices" ==> |rest| > 2 && Silent(Obj(Devices(lists)), rest[2..]))
    ensures Silent(Obj(Spec(lists)), rest)
  {
    if rest[0] == "domain" && |rest| > 1 {
      var inner := rest[1..];
      assert inner[1..] == rest[2..];
      assert Silent(One("devices", Obj(Devices(lists))), inner) <== inner[0] != "devices" || Silent(Obj(Devices(lists)), inner[1..]);
    }
  }

  lemma Deeper(path: Path, a: string, b: string, c: string)
    requires |path| >= 3 && path[0] == a && path[1] == b && path[2] == c
    ensures path == [a, b, c] + path[3..] && path[1..][1..][1..] == path[3..] && path[1..][0] == b && path[1..][1..][0] == c
  {
  }

  lemma ApartSilent(lists: Lists, path: Path)
    requires Apart(lists, path)
    ensures Silent(DevicesPatch(lists), path)
  {
    if path[0] == "spec" {
      assert path[1..][0] == path[1];
      if path[1] == "template" {
        assert path[1..][1..][0] == path[2];
        if path[2] == "spec" {
          Deeper(path, "spec", "template", "spec");
          var rest := path[3..];
          SpecApart(lists, path, rest);
          SpecSilent(lists, rest);
        }
      }
    }
  }

  lemma SpecApart(lists: Lists, path: Path, rest: Path)
    requires Apart(lists, path) && path == ["spec", "template", "spec"] + rest
    ensures rest != []
    ensures lists.volumes.Some? ==> rest[0] != "volumes"
    ensures lists.networks.Some? ==> rest[0] != "networks"
    ensures (lists.disks.Some? || lists.interfaces.Some?) && rest[0] == "domain" ==>
              |rest| > 1 && (rest[1] == "devices" ==> |rest| > 2 && Silent(Obj(Devices(lists)), rest[2..]))
  {
    if rest != [] && rest[0] == "domain" && |rest| > 2 && rest[1] == "devices" {
      assert path[5] == rest[2];
      DevicesSilent(lists, rest[2..]);
    }
  }

  lemma {:induction false} AtNested(value: Json, a: Path, b: Path)
    ensures At(value, a + b) == match At(value, a) case None => None case Some(inner) => At(inner, b)
    decreases |a|
  {
    if a == [] {
      assert a + b == b;
    } else if a[0] in Fields(value) {
      assert (a + b)[0] == a[0] && (a + b)[1..] == a[1..] + b;
      AtNested(value.fields[a[0]], a[1..], b);
    }
  }

  lemma AtKey(fields: map<string, Json>, key: string, rest: Path)
    requires key in fields
    ensures At(Obj(fields), [key] + rest) == At(fields[key], rest)
  {
    assert ([key] + rest)[0] == key && ([key] + rest)[1..] == rest;
  }

  lemma GivenIn(lists: Lists)
    ensures At(DevicesPatch(lists), ["spec", "template", "spec"]) == Some(Obj(Spec(lists)))
    ensures lists.disks.Some? || lists.interfaces.Some? ==>
              At(Obj(Spec(lists)), ["domain", "devices"]) == Some(Obj(Devices(lists)))
  {
    var spec, template := Obj(Spec(lists)), DevicesPatch(lists).fields["spec"].fields;
    assert ["spec", "template", "spec"] == ["spec"] + (["template"] + (["spec"] + []));
    AtKey(DevicesPatch(lists).fields, "spec", ["template"] + (["spec"] + []));
    AtKey(template, "template", ["spec"] + []);
    AtKey(map["spec" := spec], "spec", []);
    if lists.disks.Some? || lists.interfaces.Some? {
      assert (if lists.disks.Some? then "disks" else "interfaces") in Devices(lists);
      assert ["domain", "devices"] == ["domain"] + (["devices"] + []);
      AtKey(Spec(lists), "domain", ["devices"] + []);
      AtKey(map["devices" := Obj(Devices(lists))], "devices", []);
    }
  }

  lemma Given(lists: Lists)
    ensures lists.disks.Some? ==> At(DevicesPatch(lists), DISKS) == Some(Arr(lists.disks.value))
    ensures lists.interfaces.Some? ==> At(DevicesPatch(lists), INTERFACES) == Some(Arr(lists.interfaces.value))
    ensures lists.volumes.Some? ==> At(DevicesPatch(lists), VOLUMES) == Some(Arr(lists.volumes.value))
    ensures lists.networks.Some? ==> At(DevicesPatch(lists), NETWORKS) == Some(Arr(lists.networks.value))
    ensures lists.dataVolumeTemplates.Some? ==>
              At(DevicesPatch(lists), TEMPLATES) == Some(Arr(lists.dataVolumeTemplates.value))
  {
    var patch := DevicesPatch(lists);
    var spec: Path, devices: Path := ["spec", "template", "spec"], ["domain", "devices"];
    GivenIn(lists);
    AtNested(patch, spec, devices);
    assert VOLUMES == spec + ["volumes"] && NETWORKS == spec + ["networks"] && TEMPLATES == ["spec"] + ["dataVolumeTemplates"];
    assert DISKS == spec + devices + ["disks"] && INTERFACES == spec + devices + ["interfaces"];
    GivenAt(patch, spec, Spec(lists), VOLUMES, "volumes", lists.volumes);
    GivenAt(patch, spec, Spec(lists), NETWORKS, "networks", lists.networks);
    if lists.disks.Some? || lists.interfaces.Some? {
      GivenAt(patch, spec + devices, Devices(lists), DISKS, "disks", lists.disks);
      GivenAt(patch, spec + devices, Devices(lists), INTERFACES, "interfaces", lists.interfaces);
    }
    AtKey(patch.fields, "spec", []);
    assert ["spec"] + [] == ["spec"];
    GivenAt(patch, ["spec"], patch.fields["spec"].fields, TEMPLATES, "dataVolumeTemplates", lists.dataVolumeTemplates);
  }

  lemma GivenAt(patch: Json, path: Path, fields: map<string, Json>, whole: Path, key: string, list: Option<seq<Json>>)
    requires At(patch, path) == Some(Obj(fields)) && whole == path + [key]
    requires list.Some? ==> key in fields && fields[key] == Arr(list.value)
    ensures list.Some? ==> At(patch, whole) == Some(Arr(list.value))
  {
    AtNested(patch, path, [key]);
    if list.Some? {
      AtKey(fields, key, []);
      assert [key] + [] == [key];
    }
  }

  lemma Part(a: Path, b: Path, k: nat)
    requires k < |a| && k < |b| && a[k] != b[k]
    ensures !Meets(a, b)
  {
  }

  /** None of the lists lies on the way to another. */
  lemma ListsApart()
    ensures !Meets(DISKS, INTERFACES) && !Meets(DISKS, VOLUMES) && !Meets(DISKS, NETWORKS) && !Meets(DISKS, TEMPLATES)
    ensures !Meets(INTERFACES, VOLUMES) && !Meets(INTERFACES, NETWORKS) && !Meets(INTERFACES, TEMPLATES)
    ensures !Meets(VOLUMES, NETWORKS) && !Meets(VOLUMES, TEMPLATES) && !Meets(NETWORKS, TEMPLATES)
  {
    assert |"disks"| != |"interfaces"| && |"domain"| != |"volumes"| && |"domain"| != |"networks"|;
    assert |"template"| != |"dataVolumeTemplates"| && |"volumes"| != |"networks"|;
    Part(DISKS, INTERFACES, 5);
    Part(DISKS, VOLUMES, 3);
    Part(DISKS, NETWORKS, 3);
    Part(INTERFACES, VOLUMES, 3);
    Part(INTERFACES, NETWORKS, 3);
    Part(VOLUMES, NETWORKS, 3);
    Part(DISKS, TEMPLATES, 1);
    Part(INTERFACES, TEMPLATES, 1);
    Part(VOLUMES, TEMPLATES, 1);
    Part(NETWORKS, TEMPLATES, 1);
  }

  lemma NotOnTheWay()
    ensures !(DISKS <= ["spec", "template", "spec"]) && !(INTERFACES <= ["spec", "template", "spec"])
    ensures !(VOLUMES <= ["spec", "template", "spec"]) && !(NETWORKS <= ["spec", "template", "spec"])
    ensures !(TEMPLATES <= ["spec", "template", "spec"])
  {
    assert |"template"| != |"dataVolumeTemplates"| && TEMPLATES[1] == "dataVolumeTemplates";
  }

  /** What a list becomes: what was given for it, or what it was. */
  predicate Becomes(before: Json, after: Json, path: Path, list: Option<seq<Json>>)
  {
    At(after, path) == match list case Some(items) => Some(Arr(items)) case None => At(before, path)
  }

  /** Every list that is given is replaced whole, every other one is left alone, and so is everything else that is
      not on the way to a given list. */
  lemma DevicesReplaced(vm: Json, lists: Lists)
    ensures var n := Merge(vm, DevicesPatch(lists));
            && Becomes(vm, n, DISKS, lists.disks) && Becomes(vm, n, INTERFACES, lists.interfaces)
            && Becomes(vm, n, VOLUMES, lists.volumes) && Becomes(vm, n, NETWORKS, lists.networks)
            && Becomes(vm, n, TEMPLATES, lists.dataVolumeTemplates)
            && forall path | Apart(lists, path) :: At(n, path) == At(vm, path)
  {
    var patch := DevicesPatch(lists);
    Given(lists);
    forall path | Apart(lists, path) ensures At(Merge(vm, patch), path) == At(vm, path) {
      ApartSilent(lists, path);
      SilentKeeps(vm, patch, path);
    }
    ListsApart();
    NotOnTheWay();
    ListBecomes(vm, lists, DISKS, lists.disks);
    ListBecomes(vm, lists, INTERFACES, lists.interfaces);
    ListBecomes(vm, lists, VOLUMES, lists.volumes);
    ListBecomes(vm, lists, NETWORKS, lists.networks);
    ListBecomes(vm, lists, TEMPLATES, lists.dataVolumeTemplates);
  }

  lemma ListBecomes(vm: Json, lists: Lists, path: Path, list: Option<seq<Json>>)
    requires if list.Some? then At(DevicesPatch(lists), path) == Some(Arr(list.value)) else Apart(lists, path)
    ensures Becomes(vm, Merge(vm, DevicesPatch(lists)), path, list)
  {
    if list.Some? {
      SaysIsSet(vm, DevicesPatch(lists), path);
    } else {
      ApartSilent(lists, path);
      SilentKeeps(vm, DevicesPatch(lists), path);
    }
  }

  // ---- `patchVm` ----

  const VERSION: Path := ["metadata", "resourceVersion"]

  /** The patch with the version of the VM it was built from. */
  function WithVersion(patch: Json, version: Json): Json
  {
    var metadata := if "metadata" in Fields(patch) then Fields(patch.fields["metadata"]) else map[];
    Obj(Fields(patch)["metadata" := Obj(metadata["resourceVersion" := version])])
  }

  /** It is the same patch but for the version. */
  lemma VersionAdded(patch: Json, version: Json, path: Path)
    requires !Meets(path, VERSION)
    ensures At(WithVersion(patch, version), path) == At(patch, path)
  {
    var fields := Fields(patch);
    if path[0] == "metadata" {
      assert path[1..][0] == path[1];
    }
  }

  lemma CarriesVersion(target: Json, patch: Json, version: int)
    ensures At(Merge(target, WithVersion(patch, Num(version))), VERSION) == Some(Num(version))
  {
    var sent := WithVersion(patch, Num(version));
    var metadata := sent.fields["metadata"].fields;
    assert VERSION == ["metadata"] + (["resourceVersion"] + []);
    AtKey(sent.fields, "metadata", ["resourceVersion"] + []);
    AtKey(metadata, "resourceVersion", []);
    SaysIsSet(target, sent, VERSION);
  }

  // ---- `patchTemplate` and `updateTemplate` ----

  function TemplatePatch(spec: Json): Json
  {
    One("spec", One("template", One("spec", spec)))
  }

  /** An edit of `spec.template.spec` reaches nothing else. */
  lemma TemplateOnly(vm: Json, spec: Json, path: Path)
    requires !Meets(path, ["spec", "template", "spec"])
    ensures At(Merge(vm, TemplatePatch(spec)), path) == At(vm, path)
  {
    if path[0] == "spec" {
      assert path[1..][0] == path[1];
      if path[1] == "template" {
        assert path[1..][1..][0] == path[2];
        assert path[2] != "spec" by {
          if path[2] == "spec" {
            Deeper(path, "spec", "template", "spec");
          }
        }
      }
    }
    SilentKeeps(vm, TemplatePatch(spec), path);
  }

  /** And where it says something, there it is. */
  lemma TemplateSet(vm: Json, spec: Json, path: Path)
    requires At(spec, path).Some? && !At(spec, path).value.Obj? && !At(spec, path).value.Null?
    ensures At(Merge(vm, TemplatePatch(spec)), ["spec", "template", "spec"] + path) == At(spec, path)
  {
    var patch, whole := TemplatePatch(spec), ["spec", "template", "spec"] + path;
    assert whole == ["spec"] + (["template"] + (["spec"] + path));
    AtKey(patch.fields, "spec", ["template"] + (["spec"] + path));
    AtKey(patch.fields["spec"].fields, "template", ["spec"] + path);
    AtKey(map["spec" := spec], "spec", path);
    SaysIsSet(vm, patch, whole);
  }
}

/** The release manifest: which links, directories, groups and units one switch may touch. */
module ReleaseManifest {

  /** A canonical absolute path as its parts; a parent is a proper prefix. */
  type Path = seq<string>

  datatype Component = Component(id: string, releases: Path, link: Path, target: string, group: string)
  datatype Group = Group(id: string, units: seq<string>)
  datatype Manifest = Manifest(state: Path, components: seq<Component>, groups: seq<Group>)

  ghost predicate Distinct<T>(s: seq<T>) {
    forall i, j :: 0 <= i < j < |s| ==> s[i] != s[j]
  }

  predicate Separate(a: Path, b: Path) {
    !(a <= b) && !(b <= a)
  }

  function GroupIds(groups: seq<Group>): seq<string> {
    seq(|groups|, i requires 0 <= i < |groups| => groups[i].id)
  }

  /** The units of every group in turn; a unit belongs to a single group. */
  function Units(groups: seq<Group>): seq<string> {
    if groups == [] then [] else Units(groups[..|groups| - 1]) + groups[|groups| - 1].units
  }

  function Ids(c: seq<Component>): seq<string> {
    seq(|c|, i requires 0 <= i < |c| => c[i].id)
  }

  function Links(c: seq<Component>): seq<Path> {
    seq(|c|, i requires 0 <= i < |c| => c[i].link)
  }

  ghost predicate GroupsOk(groups: seq<Group>) {
    && 0 < |groups| <= 32
    && (forall i :: 0 <= i < |groups| ==> groups[i].units != [])
    && Distinct(GroupIds(groups)) && Distinct(Units(groups))
  }

  ghost predicate ComponentsOk(m: Manifest) {
    var c := m.components;
    && 0 < |c| <= 32 && Distinct(Ids(c)) && Distinct(Links(c)) && "hermes" !in Ids(c)
    && (forall i :: 0 <= i < |c| ==> c[i].group in GroupIds(m.groups))
    && (forall g :: g in GroupIds(m.groups) ==> exists i :: 0 <= i < |c| && c[i].group == g)
  }

  ghost predicate PathsOk(m: Manifest) {
    var c := m.components;
    && |m.state| >= 4
    && (forall i :: 0 <= i < |c| ==> |c[i].releases| >= 4 && Separate(m.state, c[i].releases))
    && (forall i, j :: 0 <= i < |c| && 0 <= j < |c| ==> !(c[i].releases <= c[j].link))
    && (forall i, j :: 0 <= i < |c| && 0 <= j < |c| && i != j ==> Separate(c[i].releases, c[j].releases))
  }

  /** Everything the switch relies on, stated without the order of the checks. */
  ghost predicate WellFormed(m: Manifest) {
    GroupsOk(m.groups) && ComponentsOk(m) && PathsOk(m)
  }

  method AllDistinct<T(==)>(s: seq<T>) returns (ok: bool)
    ensures ok <==> Distinct(s)
  {
    var seen: set<T> := {};
    for i := 0 to |s|
      invariant forall t :: t in seen <==> t in s[..i]
      invariant forall j, k :: 0 <= j < k < i ==> s[j] != s[k]
    {
      if s[i] in seen {
        return false;
      }
      seen := seen + {s[i]};
    }
    ok := true;
  }

  method ValidateGroups(groups: seq<Group>) returns (ok: bool)
    ensures ok <==> GroupsOk(groups)
  {
    if !(0 < |groups| <= 32) {
      return false;
    }
    var units := [];
    for i := 0 to |groups|
      invariant units == Units(groups[..i])
      invariant forall j :: 0 <= j < i ==> groups[j].units != []
    {
      if groups[i].units == [] {
        return false;
      }
      assert groups[..i + 1][..i] == groups[..i];
      units := units + groups[i].units;
    }
    assert groups[..|groups|] == groups;
    ok := AllDistinct(GroupIds(groups));
    if ok {
      ok := AllDistinct(units);
    }
  }

  method ValidateComponents(m: Manifest) returns (ok: bool)
    ensures ok <==> ComponentsOk(m)
  {
    var c := m.components;
    if !(0 < |c| <= 32) || "hermes" in Ids(c) {
      return false;
    }
    ok := AllDistinct(Ids(c));
    if ok {
      ok := AllDistinct(Links(c));
    }
    if !ok {
      return;
    }
    var used: set<string> := {};
    for i := 0 to |c|
      invariant forall g :: g in used <==> exists j :: 0 <= j < i && c[j].group == g
      invariant forall j :: 0 <= j < i ==> c[j].group in GroupIds(m.groups)
    {
      if c[i].group !in GroupIds(m.groups) {
        return false;
      }
      used := used + {c[i].group};
    }
    ok := forall g :: g in GroupIds(m.groups) ==> g in used;
  }

  method ValidateManifest(m: Manifest) returns (ok: bool)
    ensures ok <==> WellFormed(m)
  {
    if |m.state| < 4 {
      return false;
    }
    ok := ValidateGroups(m.groups);
    if ok {
      ok := ValidateComponents(m);
    }
    if !ok {
      return;
    }
    var c := m.components;
    for i := 0 to |c|
      invariant forall j :: 0 <= j < i ==> |c[j].releases| >= 4 && Separate(m.state, c[j].releases)
      invariant forall j, k :: 0 <= j < i && 0 <= k < |c| ==> !(c[j].releases <= c[k].link)
      invariant forall j, k :: 0 <= j < i && 0 <= k < |c| && j != k ==> Separate(c[j].releases, c[k].releases)
    {
      if |c[i].releases| < 4 || !Separate(m.state, c[i].releases) {
        return false;
      }
      for k := 0 to |c|
        invariant forall j :: 0 <= j < k ==> !(c[i].releases <= c[j].link)
        invariant forall j :: 0 <= j < k && j != i ==> Separate(c[i].releases, c[j].releases)
      {
        if c[i].releases <= c[k].link || (k != i && !Separate(c[i].releases, c[k].releases)) {
          return false;
        }
      }
    }
    ok := true;
  }
}

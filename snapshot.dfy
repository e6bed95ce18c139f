/**
 * emil.utils.Snapshot: turning a running machine's configuration and the bindings'
 * written data into a new environment revision, a user-session image, or an object
 * environment. The image archive is a foreign service: each call to it is recorded as
 * an ImportCall value, and the id it answers is a parameter.
 */
module Snapshots {
  import opened JavaLang

  /** The id of the container root filesystem's data, which is never archived with a snapshot. */
  const ROOTFS_ID: string := "emucon-rootfs"

  const NULL_DEREFERENCE: string := "java.lang.NullPointerException"
  const INDEX_OUT_OF_BOUNDS: string := "java.lang.IndexOutOfBoundsException"

  /** An AbstractDataResource of a machine configuration: a binding id and where it points. */
  datatype DataResource = DataResource(id: string, location: string)

  /** A drive of a machine configuration; `data` is its binding reference, null when the element is absent. */
  datatype Drive = Drive(kind: string, data: Option<string>)

  /** A BindingDataHandler: the written data of one binding. */
  datatype BindingData = BindingData(id: string, url: string)

  /** The fields of a machine configuration this model tracks, as a value. */
  datatype MachineState = MachineState(
    resources: Option<seq<DataResource>>,
    drives: Option<seq<Drive>>,
    installedSoftwareIds: seq<string>,
    title: Option<string>)

  class MachineConfiguration {
    var resources: Option<seq<DataResource>>
    var drives: Option<seq<Drive>>
    var installedSoftwareIds: seq<string>
    /** The title of the configuration's description. */
    var title: Option<string>

    constructor (s: MachineState)
      ensures State() == s
    {
      resources := s.resources;
      drives := s.drives;
      installedSoftwareIds := s.installedSoftwareIds;
      title := s.title;
    }

    function State(): MachineState
      reads this
    {
      MachineState(resources, drives, installedSoftwareIds, title)
    }

    /** A fresh configuration with the same contents. */
    method Copy() returns (c: MachineConfiguration)
      ensures fresh(c) && c.State() == State()
    {
      c := new MachineConfiguration(State());
    }

    method SetTitle(t: Option<string>)
      modifies this`title
      ensures title == t
    {
      title := t;
    }
  }

  // ---------------------------------------------------------------------------
  // addSoftwareId

  /** The list with x appended, unless it already holds x. */
  function AddIfAbsent(s: seq<string>, x: string): (r: seq<string>)
    ensures x in r
    ensures |s| <= |r| <= |s| + 1 && r[..|s|] == s
    ensures x in s <==> r == s
    ensures forall y :: y in r <==> y in s || y == x
  {
    if x in s then s else s + [x]
  }

  lemma AddIfAbsentIdempotent(s: seq<string>, x: string)
    ensures AddIfAbsent(AddIfAbsent(s, x), x) == AddIfAbsent(s, x)
  {
  }

  /** Adding ids one after another never duplicates an id that was not duplicated before. */
  lemma {:induction false} AddIfAbsentKeepsDistinct(s: seq<string>, x: string)
    requires forall i, j :: 0 <= i < j < |s| ==> s[i] != s[j]
    ensures var r := AddIfAbsent(s, x); forall i, j :: 0 <= i < j < |r| ==> r[i] != r[j]
  {
    if x !in s {
      var r := s + [x];
      forall i, j | 0 <= i < j < |r| ensures r[i] != r[j] {
        if j == |s| {
          assert r[i] == s[i];
        }
      }
    }
  }

  /** addSoftwareId: appends the id to the installed software list unless it is already there. */
  method AddSoftwareId(env: MachineConfiguration, softwareId: string)
    modifies env`installedSoftwareIds
    ensures env.installedSoftwareIds == AddIfAbsent(old(env.installedSoftwareIds), softwareId)
  {
    if softwareId !in env.installedSoftwareIds {
      env.installedSoftwareIds := env.installedSoftwareIds + [softwareId];
    }
  }

  // ---------------------------------------------------------------------------
  // The emucon-rootfs filter

  /** The data handlers other than the root filesystem, in their order. */
  function WithoutRootfs(s: seq<BindingData>): (r: seq<BindingData>)
    ensures |r| <= |s|
    ensures forall k :: 0 <= k < |r| ==> r[k].id != ROOTFS_ID
    ensures forall b :: b in r <==> b in s && b.id != ROOTFS_ID
  {
    if s == [] then []
    else
      var last := s[|s| - 1];
      WithoutRootfs(s[..|s| - 1]) + (if last.id == ROOTFS_ID then [] else [last])
  }

  /** The filter distributes over concatenation, so it keeps the relative order of what it keeps. */
  lemma {:induction false} WithoutRootfsAppend(a: seq<BindingData>, b: seq<BindingData>)
    ensures WithoutRootfs(a + b) == WithoutRootfs(a) + WithoutRootfs(b)
    decreases |b|
  {
    if b != [] {
      var last := b[|b| - 1];
      var b' := b[..|b| - 1];
      var x := if last.id == ROOTFS_ID then [] else [last];
      assert (a + b)[..|a + b| - 1] == a + b';
      assert (a + b)[|a + b| - 1] == last;
      assert WithoutRootfs(a + b) == WithoutRootfs(a + b') + x;
      assert WithoutRootfs(b) == WithoutRootfs(b') + x;
      WithoutRootfsAppend(a, b');
      assert WithoutRootfs(a) + WithoutRootfs(b') + x == WithoutRootfs(a) + (WithoutRootfs(b') + x);
    } else {
      assert a + b == a;
    }
  }

  /** One more element at the end is kept or dropped on its own. */
  lemma WithoutRootfsSnoc(init: seq<BindingData>, last: BindingData)
    ensures WithoutRootfs(init + [last]) == WithoutRootfs(init) + (if last.id == ROOTFS_ID then [] else [last])
  {
    assert (init + [last])[..|init|] == init;
  }

  /** A list without the root filesystem's data is left as it is. */
  lemma {:induction false} WithoutRootfsKeepsClean(s: seq<BindingData>)
    requires forall k :: 0 <= k < |s| ==> s[k].id != ROOTFS_ID
    ensures WithoutRootfs(s) == s
    decreases |s|
  {
    if s != [] {
      var init, last := s[..|s| - 1], s[|s| - 1];
      assert s == init + [last];
      WithoutRootfsKeepsClean(init);
      WithoutRootfsSnoc(init, last);
    }
  }

  /** Filtering twice is filtering once. */
  lemma WithoutRootfsIdempotent(s: seq<BindingData>)
    ensures WithoutRootfs(WithoutRootfs(s)) == WithoutRootfs(s)
  {
    WithoutRootfsKeepsClean(WithoutRootfs(s));
  }

  // ---------------------------------------------------------------------------
  // copyBinding

  /** The source's resources with the given id, in order. */
  function Matching(rs: seq<DataResource>, id: string): (m: seq<DataResource>)
    ensures |m| <= |rs|
    ensures forall k :: 0 <= k < |m| ==> m[k].id == id
  {
    if rs == [] then []
    else
      var last := rs[|rs| - 1];
      Matching(rs[..|rs| - 1], id) + (if last.id == id then [last] else [])
  }

  /** The matching resources are exactly the source's resources with the id. */
  lemma {:induction false} MatchingMembers(rs: seq<DataResource>, id: string)
    ensures forall x :: x in Matching(rs, id) <==> x in rs && x.id == id
    decreases |rs|
  {
    if rs != [] {
      var init, last := rs[..|rs| - 1], rs[|rs| - 1];
      MatchingMembers(init, id);
      assert rs == init + [last];
    }
  }

  /** Whether the drive search stops at `d`: its data holds the binding, or it has none (the search throws). */
  predicate StopsSearch(d: Drive, bindingId: string) {
    d.data.None? || Contains(d.data.value, bindingId)
  }

  /**
   * The position of the first drive at or after `from` where the search stops, or |drives|:
   * every drive before it has data without the binding.
   */
  function FirstDriveWith(drives: seq<Drive>, bindingId: string, from: nat): (k: nat)
    requires from <= |drives|
    ensures from <= k <= |drives|
    ensures k < |drives| ==> drives[k].data.None? || Contains(drives[k].data.value, bindingId)
    ensures forall j :: from <= j < k ==> drives[j].data.Some? && !Contains(drives[j].data.value, bindingId)
    decreases |drives| - from
  {
    if from == |drives| then from
    else if StopsSearch(drives[from], bindingId) then from
    else FirstDriveWith(drives, bindingId, from + 1)
  }

  /**
   * copyBinding's drive search: counts the drives before the first one holding the binding.
   * `getData().contains(...)` on a drive without data is a NullPointerException.
   */
  method FindDriveIndex(drives: seq<Drive>, bindingId: string) returns (index: nat, r: Outcome)
    ensures index <= |drives|
    ensures r.Fail? <==> index < |drives| && drives[index].data.None?
    ensures r.Fail? ==> r == Fail(NULL_DEREFERENCE)
    ensures r.Pass? && index < |drives| ==> drives[index].data.Some? && Contains(drives[index].data.value, bindingId)
    ensures forall j :: 0 <= j < index ==> drives[j].data.Some? && !Contains(drives[j].data.value, bindingId)
    ensures index == FirstDriveWith(drives, bindingId, 0)
  {
    index := 0;
    r := Pass;
    while index < |drives|
      invariant index <= |drives|
      invariant forall j :: 0 <= j < index ==> drives[j].data.Some? && !Contains(drives[j].data.value, bindingId)
    {
      if drives[index].data.None? {
        return index, Fail(NULL_DEREFERENCE);
      }
      if Contains(drives[index].data.value, bindingId) {
        return;
      }
      index := index + 1;
    }
  }

  /** Drive k with its data replaced. */
  function SetDriveData(ds: seq<Drive>, k: nat, data: Option<string>): (r: seq<Drive>)
    requires k < |ds|
    ensures |r| == |ds| && r[k] == ds[k].(data := data)
    ensures forall j :: 0 <= j < |ds| && j != k ==> r[j] == ds[j]
  {
    ds[k := ds[k].(data := data)]
  }

  datatype CopyState = CopyState(resources: Option<seq<DataResource>>, drives: Option<seq<Drive>>, outcome: Outcome)

  /**
   * What copyBinding does to the target when the source has a resource list. All
   * matching resources share the binding id, so the drive search finds the same drive k
   * each time. With no matching resource nothing changes. Without source drives every
   * match is appended. With drives but none holding the binding, the first match is
   * appended and the method returns ("inconsistent metadata"). A drive without data
   * before the binding's drive ends the search with a NullPointerException after the first
   * match is appended. Otherwise the first match is appended, and then target drive k gets
   * source drive k's data, which fails when the target has no drive list or no drive k;
   * when it succeeds, every match is appended.
   */
  function CopyBindingEffect(srcResources: seq<DataResource>, srcDrives: Option<seq<Drive>>,
                             targetResources: Option<seq<DataResource>>, targetDrives: Option<seq<Drive>>,
                             id: string): CopyState
  {
    var m := Matching(srcResources, id);
    var base := targetResources.GetOr([]);
    if m == [] then CopyState(targetResources, targetDrives, Pass)
    else if srcDrives.None? then CopyState(Some(base + m), targetDrives, Pass)
    else
      var k := FirstDriveWith(srcDrives.value, id, 0);
      if k == |srcDrives.value| then CopyState(Some(base + [m[0]]), targetDrives, Pass)
      else if srcDrives.value[k].data.None? then CopyState(Some(base + [m[0]]), targetDrives, Fail(NULL_DEREFERENCE))
      else if targetDrives.None? then CopyState(Some(base + [m[0]]), targetDrives, Fail(NULL_DEREFERENCE))
      else if k >= |targetDrives.value| then CopyState(Some(base + [m[0]]), targetDrives, Fail(INDEX_OUT_OF_BOUNDS))
      else
        CopyState(Some(base + m), Some(SetDriveData(targetDrives.value, k, srcDrives.value[k].data)), Pass)
  }

  /** Only resources with the binding id are ever added to the target, after what it had. */
  lemma CopyBindingAddsOnlyMatching(srcResources: seq<DataResource>, srcDrives: Option<seq<Drive>>,
                                    targetResources: Option<seq<DataResource>>, targetDrives: Option<seq<Drive>>,
                                    id: string)
    ensures var e := CopyBindingEffect(srcResources, srcDrives, targetResources, targetDrives, id);
      && (e.resources.Some? ==> var base := targetResources.GetOr([]);
            |base| <= |e.resources.value| && e.resources.value[..|base|] == base
            && forall k :: |base| <= k < |e.resources.value| ==> e.resources.value[k].id == id)
      && (e.resources.None? ==> targetResources.None?)
  {
    var e := CopyBindingEffect(srcResources, srcDrives, targetResources, targetDrives, id);
    var m := Matching(srcResources, id);
    var base := targetResources.GetOr([]);
    if m != [] {
      assert m[..1] == [m[0]];
      assert (base + m)[..|base|] == base;
      assert (base + [m[0]])[..|base|] == base;
    }
  }

  /**
   * The target's drives change only when the binding is found in source drive k and the
   * target has a drive k; then drive k, and only its data, becomes the source's.
   */
  lemma CopyBindingDrive(srcResources: seq<DataResource>, srcDrives: Option<seq<Drive>>,
                         targetResources: Option<seq<DataResource>>, targetDrives: Option<seq<Drive>>,
                         id: string)
    ensures var e := CopyBindingEffect(srcResources, srcDrives, targetResources, targetDrives, id);
      e.drives != targetDrives ==>
        && Matching(srcResources, id) != [] && srcDrives.Some? && targetDrives.Some?
        && var k := FirstDriveWith(srcDrives.value, id, 0);
           && k < |srcDrives.value| && k < |targetDrives.value|
           && srcDrives.value[k].data.Some? && Contains(srcDrives.value[k].data.value, id)
           && e.drives.Some? && |e.drives.value| == |targetDrives.value|
           && e.drives.value[k] == targetDrives.value[k].(data := srcDrives.value[k].data)
           && forall j :: 0 <= j < |targetDrives.value| && j != k ==> e.drives.value[j] == targetDrives.value[j]
  {
  }

  lemma {:induction false} MatchingAppend(a: seq<DataResource>, b: seq<DataResource>, id: string)
    ensures Matching(a + b, id) == Matching(a, id) + Matching(b, id)
    decreases |b|
  {
    if b != [] {
      var last := b[|b| - 1];
      var b' := b[..|b| - 1];
      var x := if last.id == id then [last] else [];
      assert (a + b)[..|a + b| - 1] == a + b';
      assert (a + b)[|a + b| - 1] == last;
      assert Matching(a + b, id) == Matching(a + b', id) + x;
      assert Matching(b, id) == Matching(b', id) + x;
      MatchingAppend(a, b', id);
      assert Matching(a, id) + Matching(b', id) + x == Matching(a, id) + (Matching(b', id) + x);
    } else {
      assert a + b == a;
    }
  }

  /** When rs[i] is the first resource with the id, it heads the matching list. */
  lemma FirstMatchAt(rs: seq<DataResource>, id: string, i: nat)
    requires i < |rs| && rs[i].id == id && Matching(rs[..i], id) == []
    ensures Matching(rs, id) != [] && Matching(rs, id)[0] == rs[i]
  {
    MatchingPrefix(rs, id, i);
    var head := Matching(rs[..i + 1], id);
    assert head == [rs[i]];
    assert rs == rs[..i + 1] + rs[i + 1..];
    MatchingAppend(rs[..i + 1], rs[i + 1..], id);
    assert Matching(rs, id) == head + Matching(rs[i + 1..], id);
  }

  /** Once some resource has the id, what follows does not change the first match. */
  lemma MatchingHeadStable(rs: seq<DataResource>, id: string, i: nat)
    requires i <= |rs| && Matching(rs[..i], id) != []
    ensures Matching(rs, id) != [] && Matching(rs, id)[0] == Matching(rs[..i], id)[0]
  {
    assert rs == rs[..i] + rs[i..];
    MatchingAppend(rs[..i], rs[i..], id);
  }

  lemma MatchingPrefix(rs: seq<DataResource>, id: string, i: nat)
    requires i < |rs|
    ensures Matching(rs[..i + 1], id) == Matching(rs[..i], id) + (if rs[i].id == id then [rs[i]] else [])
  {
    assert rs[..i + 1][..i] == rs[..i];
  }

  /** A resource with another id leaves the effect as it was. */
  lemma CopyStepSkip(rs: seq<DataResource>, i: nat, srcDrives: Option<seq<Drive>>,
                     t0: Option<seq<DataResource>>, d0: Option<seq<Drive>>, id: string)
    requires i < |rs| && rs[i].id != id
    ensures Matching(rs[..i + 1], id) == Matching(rs[..i], id)
    ensures CopyBindingEffect(rs[..i + 1], srcDrives, t0, d0, id) == CopyBindingEffect(rs[..i], srcDrives, t0, d0, id)
  {
    MatchingPrefix(rs, id, i);
    assert Matching(rs[..i + 1], id) == Matching(rs[..i], id) + [];
    assert Matching(rs[..i + 1], id) == Matching(rs[..i], id);
  }

  /** Without source drives, a matching resource is appended and nothing else changes. */
  lemma CopyStepNoDrives(rs: seq<DataResource>, i: nat, t0: Option<seq<DataResource>>,
                         d0: Option<seq<Drive>>, id: string)
    requires i < |rs| && rs[i].id == id
    ensures var e := CopyBindingEffect(rs[..i], None, t0, d0, id);
      CopyBindingEffect(rs[..i + 1], None, t0, d0, id) == CopyState(Some(e.resources.GetOr([]) + [rs[i]]), e.drives, Pass)
  {
    MatchingPrefix(rs, id, i);
    var m := Matching(rs[..i], id);
    var base := t0.GetOr([]);
    assert Matching(rs[..i + 1], id) == m + [rs[i]];
    if m == [] {
      assert base + [rs[i]] == base + (m + [rs[i]]);
    } else {
      assert base + m + [rs[i]] == base + (m + [rs[i]]);
    }
  }

  /** With the binding's drive present on both sides, a matching resource is appended and the drive set. */
  lemma CopyStepDrive(rs: seq<DataResource>, i: nat, sd: seq<Drive>,
                      t0: Option<seq<DataResource>>, d0: seq<Drive>, id: string)
    requires i < |rs| && rs[i].id == id
    requires FirstDriveWith(sd, id, 0) < |sd| && FirstDriveWith(sd, id, 0) < |d0|
    requires sd[FirstDriveWith(sd, id, 0)].data.Some?
    ensures var k := FirstDriveWith(sd, id, 0);
      var e := CopyBindingEffect(rs[..i], Some(sd), t0, Some(d0), id);
      && e.drives.Some? && |e.drives.value| == |d0|
      && CopyBindingEffect(rs[..i + 1], Some(sd), t0, Some(d0), id)
         == CopyState(Some(e.resources.GetOr([]) + [rs[i]]), Some(SetDriveData(e.drives.value, k, sd[k].data)), Pass)
  {
    MatchingPrefix(rs, id, i);
    var k := FirstDriveWith(sd, id, 0);
    var m := Matching(rs[..i], id);
    var base := t0.GetOr([]);
    var once := SetDriveData(d0, k, sd[k].data);
    assert Matching(rs[..i + 1], id) == m + [rs[i]];
    if m == [] {
      assert base + [rs[i]] == base + (m + [rs[i]]);
    } else {
      assert base + m + [rs[i]] == base + (m + [rs[i]]);
      assert SetDriveData(once, k, sd[k].data) == once;
    }
  }

  /**
   * At the first matching resource, a missing drive on either side, or a drive without
   * data in the search, ends copyBinding with that resource appended and the drives untouched.
   */
  lemma CopyStop(rs: seq<DataResource>, i: nat, sd: seq<Drive>,
                 t0: Option<seq<DataResource>>, d0: Option<seq<Drive>>, id: string)
    requires i < |rs| && rs[i].id == id && Matching(rs[..i], id) == []
    ensures var k := FirstDriveWith(sd, id, 0);
      var e := CopyBindingEffect(rs, Some(sd), t0, d0, id);
      (k == |sd| || sd[k].data.None? || d0.None? || k >= |d0.value|) ==>
        && e.resources == Some(t0.GetOr([]) + [rs[i]]) && e.drives == d0
        && e.outcome == if k == |sd| then Pass
                        else if sd[k].data.None? || d0.None? then Fail(NULL_DEREFERENCE)
                        else Fail(INDEX_OUT_OF_BOUNDS)
  {
    FirstMatchAt(rs, id, i);
  }

  /**
   * The loop of copyBinding over the source's resources, on the target's resource and
   * drive lists: each resource with the binding id is appended, and its drive is looked
   * up in the source drives and copied to the target drive at the same index. The
   * outcome is the unchecked exception the drive update raises, if any.
   */
  method CopyMatchingResources(rs: seq<DataResource>, srcDrives: Option<seq<Drive>>,
                               targetResources: Option<seq<DataResource>>, targetDrives: Option<seq<Drive>>,
                               id: string)
    returns (resources: Option<seq<DataResource>>, drives: Option<seq<Drive>>, r: Outcome)
    ensures CopyState(resources, drives, r) == CopyBindingEffect(rs, srcDrives, targetResources, targetDrives, id)
  {
    resources, drives := targetResources, targetDrives;
    var i := 0;
    while i < |rs|
      invariant i <= |rs|
      invariant CopyBindingEffect(rs[..i], srcDrives, targetResources, targetDrives, id) == CopyState(resources, drives, Pass)
      invariant drives.Some? <==> targetDrives.Some?
      invariant drives.Some? ==> |drives.value| == |targetDrives.value|
      invariant Matching(rs[..i], id) != [] && srcDrives.Some? ==>
        var k := FirstDriveWith(srcDrives.value, id, 0);
        k < |srcDrives.value| && srcDrives.value[k].data.Some? && targetDrives.Some? && k < |targetDrives.value|
    {
      var res := rs[i];
      if res.id != id {
        CopyStepSkip(rs, i, srcDrives, targetResources, targetDrives, id);
        i := i + 1;
        continue;
      }
      resources := Some(resources.GetOr([]) + [res]);
      var bindingId := res.id;
      if srcDrives.None? {
        CopyStepNoDrives(rs, i, targetResources, targetDrives, id);
        i := i + 1;
        continue;
      }
      var index, searched := FindDriveIndex(srcDrives.value, bindingId);
      var found := index < |srcDrives.value|;
      if !found || searched.Fail? || drives.None? || index >= |drives.value| {
        CopyStop(rs, i, srcDrives.value, targetResources, targetDrives, id);
        r := if !found then Pass else if searched.Fail? || drives.None? then Fail(NULL_DEREFERENCE)
             else Fail(INDEX_OUT_OF_BOUNDS);
        return;
      }
      CopyStepDrive(rs, i, srcDrives.value, targetResources, targetDrives.value, id);
      drives := Some(SetDriveData(drives.value, index, srcDrives.value[index].data));
      i := i + 1;
    }
    assert rs[..|rs|] == rs;
    r := Pass;
  }

  /**
   * copyBinding: nothing happens when the source, its resource list, or the target is
   * null; otherwise the target's resources and drives change as CopyBindingEffect says,
   * and a failure is the unchecked exception the drive update raises.
   */
  method CopyBinding(src: MachineConfiguration?, target: MachineConfiguration?, id: string) returns (r: Outcome)
    requires src != null && target != null ==> src != target
    modifies target
    ensures src == null || src.resources.None? || target == null ==> r == Pass
    ensures target != null && (src == null || src.resources.None?) ==> target.State() == old(target.State())
    ensures src != null && src.resources.Some? && target != null ==>
      CopyState(target.resources, target.drives, r)
        == CopyBindingEffect(src.resources.value, src.drives, old(target.resources), old(target.drives), id)
    ensures target != null ==>
      target.installedSoftwareIds == old(target.installedSoftwareIds) && target.title == old(target.title)
  {
    if src == null || src.resources.None? || target == null {
      return Pass;
    }
    var resources, drives;
    resources, drives, r := CopyMatchingResources(src.resources.value, src.drives, target.resources, target.drives, id);
    target.resources := resources;
    target.drives := drives;
  }

  // ---------------------------------------------------------------------------
  // The snapshot operations

  datatype ImageType = SESSIONS | OBJECT | DERIVATE

  /** The kind of the parent environment (the Java subclass of EmilEnvironment). */
  datatype EnvKind = SessionEnvironment | ObjectEnvironment(objectId: string) | PlainEnvironment

  /** The EmilEnvironment fields the snapshot operations read or set. */
  datatype EmilEnvironment = EmilEnvironment(
    kind: EnvKind, envId: string, parentEnvId: Option<string>, title: Option<string>,
    description: Option<string>, archive: string)

  /** A SaveDerivateRequest; `isNewEnvironment` when it is a SaveNewEnvironmentRequest carrying `title`. */
  datatype SaveRequest = SaveRequest(
    archive: string, envId: string, softwareId: Option<string>, message: Option<string>,
    isNewEnvironment: bool, title: Option<string>)

  /** The image archive metadata sent with an import. */
  datatype ArchiveMetadata = ArchiveMetadata(imageType: ImageType, userId: Option<string>)

  /**
   * One call into the environments adapter: importMachineEnvironment (with the data
   * list) or, when `metadataOnly`, importMetadata.
   */
  datatype ImportCall = ImportCall(
    archive: string, machine: MachineState, data: Option<seq<BindingData>>,
    metadata: ArchiveMetadata, metadataOnly: bool)

  /** The image type of a revision of a parent environment of the given kind. */
  function ImageTypeFor(kind: EnvKind): (t: ImageType)
    ensures t == SESSIONS <==> kind.SessionEnvironment?
    ensures t == OBJECT <==> kind.ObjectEnvironment?
    ensures t == DERIVATE <==> kind.PlainEnvironment?
  {
    match kind
    case SessionEnvironment => SESSIONS
    case ObjectEnvironment(_) => OBJECT
    case PlainEnvironment => DERIVATE
  }

  /** The title of a new revision: the checkpoint title, else the new-environment title, else the parent's. */
  function RevisionTitle(req: SaveRequest, parent: EmilEnvironment, checkpoint: bool): Option<string> {
    if checkpoint then Some("Snapshot " + parent.envId)
    else if req.isNewEnvironment then req.title
    else parent.title
  }

  datatype ObjectEnvironmentRequest = ObjectEnvironmentRequest(
    title: Option<string>, objectId: Option<string>, driveId: int, embedded: bool,
    objectArchiveId: Option<string>, archive: string, envId: string, message: Option<string>)

  /** The ObjectArchiveBinding handed to addArchiveBinding for an embedded object. */
  datatype ObjectBinding = ObjectBinding(archive: string, objectId: string)

  datatype ObjectEnvironmentRecord = ObjectEnvironmentRecord(
    parentEnvId: string, envId: string, title: string, driveId: int, objectId: string,
    objectArchiveId: Option<string>, description: Option<string>, archive: string)

  class Snapshot {
    const configuration: MachineConfiguration
    /** The bindings' written data; the list is filtered in place. */
    var data: Option<seq<BindingData>>

    /** The one-argument constructor: no written data. */
    constructor (config: MachineConfiguration)
      ensures configuration == config && data == None
    {
      configuration := config;
      data := None;
    }

    constructor WithData(config: MachineConfiguration, data: Option<seq<BindingData>>)
      ensures configuration == config && this.data == data
    {
      configuration := config;
      this.data := data;
    }

    /** The iterator loop that removes every emucon-rootfs entry from the data list. */
    method RemoveRootfsData()
      requires data.Some?
      modifies this`data
      ensures data == Some(WithoutRootfs(old(data).value))
    {
      var items := data.value;
      var kept: seq<BindingData> := [];
      var i := 0;
      while i < |items|
        invariant i <= |items|
        invariant kept == WithoutRootfs(items[..i])
      {
        assert items[..i + 1][..i] == items[..i];
        if items[i].id != ROOTFS_ID {
          kept := kept + [items[i]];
        }
        i := i + 1;
      }
      assert items[..|items|] == items;
      data := Some(kept);
    }

    /**
     * The resource and drive lists of a revision's configuration, with the failure of the
     * binding copy: copyBinding's effect for an object parent whose archived configuration
     * has a resource list, the snapshot configuration's own lists otherwise.
     */
    function RevisionLists(parent: EmilEnvironment, archivedParent: MachineConfiguration?): CopyState
      reads configuration, archivedParent
    {
      if parent.kind.ObjectEnvironment? && archivedParent != null && archivedParent.resources.Some? then
        CopyBindingEffect(archivedParent.resources.value, archivedParent.drives,
                          configuration.resources, configuration.drives, parent.kind.objectId)
      else CopyState(configuration.resources, configuration.drives, Pass)
    }

    /**
     * The configuration part of createEnvironment: a copy of the snapshot's configuration,
     * with the object's binding copied from `archivedParent` for an object parent, then the
     * software id added and, for a new environment, the title set. A failing binding copy
     * ends it early with that failure.
     */
    method RevisionConfiguration(req: SaveRequest, parent: EmilEnvironment, archivedParent: MachineConfiguration?)
      returns (machine: MachineState, r: Outcome)
      ensures !parent.kind.ObjectEnvironment? ==> r == Pass
      ensures CopyState(machine.resources, machine.drives, r) == RevisionLists(parent, archivedParent)
      ensures r.Pass? ==>
        && machine.installedSoftwareIds ==
             (if req.softwareId.Some? then AddIfAbsent(configuration.installedSoftwareIds, req.softwareId.value)
              else configuration.installedSoftwareIds)
        && machine.title == (if req.isNewEnvironment then req.title else configuration.title)
    {
      var copy := configuration.Copy();
      r := Pass;
      if parent.kind.ObjectEnvironment? {
        r := CopyBinding(archivedParent, copy, parent.kind.objectId);
        if r.Fail? {
          return copy.State(), r;
        }
      }
      if req.softwareId.Some? {
        AddSoftwareId(copy, req.softwareId.value);
      }
      if req.isNewEnvironment {
        copy.SetTitle(req.title);
      }
      machine := copy.State();
    }

    /**
     * createEnvironment: a new revision of `parent`. `archivedParent` is the archive's
     * configuration of the request's environment (looked up only for an object parent)
     * and `importedId` the id the archive answers. The data loses its root filesystem
     * entry unless checkpointing (a null data list then fails); a null answer fails.
     */
    method CreateEnvironment(req: SaveRequest, parent: EmilEnvironment, checkpoint: bool,
                             archivedParent: MachineConfiguration?, importedId: Option<string>)
      returns (r: Result<EmilEnvironment>, call: Option<ImportCall>)
      modifies this`data
      ensures parent.kind.SessionEnvironment? ==> call.Some? ==> call.value.metadata.imageType == SESSIONS
      ensures parent.kind.ObjectEnvironment? ==> call.Some? ==> call.value.metadata.imageType == OBJECT
      ensures parent.kind.PlainEnvironment? ==> call.Some? ==> call.value.metadata.imageType == DERIVATE
      ensures checkpoint || call.None? ==> data == old(data)
      ensures !checkpoint && call.Some? ==> old(data).Some? && data == Some(WithoutRootfs(old(data).value))
      ensures !checkpoint && old(data).None? ==> r.Err? && call.None?
      ensures !checkpoint && old(data).None? && !parent.kind.ObjectEnvironment? ==> r == Err(NULL_DEREFERENCE)
      ensures call.Some? ==>
        && call.value.archive == "default" && call.value.data == data && !call.value.metadataOnly
        && call.value.machine.installedSoftwareIds ==
             (if req.softwareId.Some? then AddIfAbsent(configuration.installedSoftwareIds, req.softwareId.value)
              else configuration.installedSoftwareIds)
        && call.value.machine.title == (if req.isNewEnvironment then req.title else configuration.title)
        && CopyState(call.value.machine.resources, call.value.machine.drives, Pass) == RevisionLists(parent, archivedParent)
      ensures RevisionLists(parent, archivedParent).outcome.Fail? ==>
        r == Err(RevisionLists(parent, archivedParent).outcome.message) && call.None? && data == old(data)
      ensures !parent.kind.ObjectEnvironment? && (checkpoint || old(data).Some?) ==> call.Some?
      ensures call.Some? && importedId.None? ==> r == Err("create revision: importMachineEnvironment failed")
      ensures r.Ok? ==> call.Some? && importedId.Some?
      ensures r.Ok? ==> r.value == parent.(envId := importedId.value, parentEnvId := Some(parent.envId),
                                            title := RevisionTitle(req, parent, checkpoint),
                                            description := req.message, archive := "default")
    {
      var machine, copied := RevisionConfiguration(req, parent, archivedParent);
      if copied.Fail? {
        return Err(copied.message), None;
      }
      if !checkpoint {
        if data.None? {
          return Err(NULL_DEREFERENCE), None;
        }
        RemoveRootfsData();
      }
      call := Some(ImportCall("default", machine, data, ArchiveMetadata(ImageTypeFor(parent.kind), None), false));
      if importedId.None? {
        return Err("create revision: importMachineEnvironment failed"), call;
      }
      // the title is the new environment's (set first) unless the checkpoint title replaces it
      r := Ok(parent.(envId := importedId.value, parentEnvId := Some(parent.envId),
                      title := RevisionTitle(req, parent, checkpoint),
                      description := req.message, archive := "default"));
    }

    /**
     * saveUserSession: refuses a snapshot without data; otherwise imports the configuration,
     * titled "user session: <user id>", as a SESSIONS image of that user with the data
     * minus its root filesystem entry, and answers the archive's id.
     */
    method SaveUserSession(userId: string, importedId: Option<string>)
      returns (r: Result<string>, call: Option<ImportCall>)
      modifies this`data
      ensures old(data).None? ==> r == Err("empty snapshots not supported.") && call.None? && data == old(data)
      ensures old(data).Some? ==>
        && data == Some(WithoutRootfs(old(data).value))
        && call == Some(ImportCall("default", configuration.State().(title := Some("user session: " + userId)),
                                   data, ArchiveMetadata(SESSIONS, Some(userId)), false))
        && r == if importedId.Some? then Ok(importedId.value) else Err("importMachineEnvironment failed")
    {
      if data.None? {
        return Err("empty snapshots not supported."), None;
      }
      var env := configuration.Copy();
      env.SetTitle(Some("user session: " + userId));
      var metadata := ArchiveMetadata(SESSIONS, Some(userId));
      RemoveRootfsData();
      call := Some(ImportCall("default", env.State(), data, metadata, false));
      if importedId.None? {
        return Err("importMachineEnvironment failed"), call;
      }
      r := Ok(importedId.value);
    }

    /**
     * createObjectEnvironment: a missing title, then a missing object id, is refused before
     * anything else. An embedded object is bound from its archive ("default" when none is
     * named), and refused when the archive does not find it (`objectFound`). Binding it
     * (addArchiveBinding, a foreign call) changes the configuration's resource and drive
     * lists, to `boundResources` and `boundDrives`, and the drive it is bound to
     * (`boundDriveId`) replaces the request's. With data the configuration is imported
     * with the filtered data, without data only its metadata; a null answer fails.
     */
    method CreateObjectEnvironment(request: ObjectEnvironmentRequest, objectFound: bool,
                                   boundResources: Option<seq<DataResource>>, boundDrives: Option<seq<Drive>>,
                                   boundDriveId: int, importedId: Option<string>)
      returns (r: Result<ObjectEnvironmentRecord>, binding: Option<ObjectBinding>, call: Option<ImportCall>)
      modifies this`data
      ensures request.title.None? ==>
        r == Err("invalid request: title is missing") && binding.None? && call.None? && data == old(data)
      ensures request.title.Some? && request.objectId.None? ==>
        r == Err("invalid request: invalid object data") && binding.None? && call.None? && data == old(data)
      ensures binding.Some? ==>
        (request.embedded && request.objectId.Some? &&
         binding.value == ObjectBinding(request.objectArchiveId.GetOr("default"), request.objectId.value))
      ensures request.title.Some? && request.objectId.Some? && request.embedded && !objectFound ==>
        r == Err("create object environment: object not found: " + request.objectId.value)
        && call.None? && data == old(data)
      ensures call.Some? ==>
        && call.value.archive == request.archive
        && call.value.machine ==
             (if request.embedded
              then configuration.State().(title := request.title, resources := boundResources, drives := boundDrives)
              else configuration.State().(title := request.title))
        && call.value.metadata == ArchiveMetadata(OBJECT, None)
        && call.value.metadataOnly == old(data).None?
        && call.value.data == data
        && (old(data).Some? ==> data == Some(WithoutRootfs(old(data).value)))
      ensures call.Some? && importedId.None? ==> r == Err("importMachineEnvironment failed")
      ensures r.Ok? ==> call.Some? && importedId.Some? && request.title.Some? && request.objectId.Some?
      ensures r.Ok? ==> r.value == ObjectEnvironmentRecord(
        request.envId, importedId.value, request.title.value,
        if request.embedded then boundDriveId else request.driveId,
        request.objectId.value, request.objectArchiveId, request.message, "default")
    {
      binding := None;
      call := None;
      if request.title.None? {
        return Err("invalid request: title is missing"), binding, call;
      }
      if request.objectId.None? {
        return Err("invalid request: invalid object data"), binding, call;
      }
      var env := configuration.Copy();
      env.SetTitle(request.title);
      var machine := env.State();
      var metadata := ArchiveMetadata(OBJECT, None);
      var driveId := request.driveId;
      if request.embedded {
        var archiveName := request.objectArchiveId.GetOr("default");
        if !objectFound {
          return Err("create object environment: object not found: " + request.objectId.value), binding, call;
        }
        binding := Some(ObjectBinding(archiveName, request.objectId.value));
        machine := machine.(resources := boundResources, drives := boundDrives);
        driveId := boundDriveId;
      }
      if data.Some? {
        RemoveRootfsData();
        call := Some(ImportCall(request.archive, machine, data, metadata, false));
      } else {
        call := Some(ImportCall(request.archive, machine, None, metadata, true));
      }
      if importedId.None? {
        return Err("importMachineEnvironment failed"), binding, call;
      }
      r := Ok(ObjectEnvironmentRecord(request.envId, importedId.value, request.title.value, driveId,
                                      request.objectId.value, request.objectArchiveId, request.message,
                                      "default"));
    }
  }
}

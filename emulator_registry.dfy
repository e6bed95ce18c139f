/**
 * imagearchive EmulatorRegistryUtil: looking up an emulator image in an image-name
 * index by name and version, with a fallback through the index's aliases (an alias
 * maps a name and an alias string such as "latest" to a concrete version).
 * A null version is None.
 */
module EmulatorRegistry {
  import opened JavaLang

  datatype Entry = Entry(name: string, version: string)
  datatype Alias = Alias(name: string, alias: string, version: string)
  datatype ImageNameIndex = ImageNameIndex(entries: seq<Entry>, aliases: seq<Alias>)

  /** The test of _getEntry's loop body: same name, and same version unless the version is null. */
  predicate EntryMatches(e: Entry, name: string, version: Option<string>) {
    e.name == name && (version.None? || e.version == version.value)
  }

  predicate AliasMatches(a: Alias, name: string, alias: string) {
    a.name == name && a.alias == alias
  }

  /** The position of the first entry at or after `from` that matches, or |entries| when none does. */
  function FirstEntryFrom(entries: seq<Entry>, name: string, version: Option<string>, from: nat): (k: nat)
    requires from <= |entries|
    ensures from <= k <= |entries|
    ensures k < |entries| ==> EntryMatches(entries[k], name, version)
    ensures forall j :: from <= j < k ==> !EntryMatches(entries[j], name, version)
    decreases |entries| - from
  {
    if from == |entries| then from
    else if EntryMatches(entries[from], name, version) then from
    else FirstEntryFrom(entries, name, version, from + 1)
  }

  /** The position of the first alias at or after `from` with this name and alias, or |aliases|. */
  function FirstAliasFrom(aliases: seq<Alias>, name: string, alias: string, from: nat): (k: nat)
    requires from <= |aliases|
    ensures from <= k <= |aliases|
    ensures k < |aliases| ==> AliasMatches(aliases[k], name, alias)
    ensures forall j :: from <= j < k ==> !AliasMatches(aliases[j], name, alias)
    decreases |aliases| - from
  {
    if from == |aliases| then from
    else if AliasMatches(aliases[from], name, alias) then from
    else FirstAliasFrom(aliases, name, alias, from + 1)
  }

  /**
   * _getEntry: the first entry with the name (and the version, when one is given);
   * null exactly when no entry matches.
   */
  function LookupEntry(index: ImageNameIndex, name: string, version: Option<string>): (r: Option<Entry>)
    ensures r.Some? ==> r.value in index.entries && EntryMatches(r.value, name, version)
    ensures r.None? <==> forall j :: 0 <= j < |index.entries| ==> !EntryMatches(index.entries[j], name, version)
    ensures r.Some? ==> exists k :: 0 <= k < |index.entries| && index.entries[k] == r.value
                                   && forall j :: 0 <= j < k ==> !EntryMatches(index.entries[j], name, version)
  {
    var k := FirstEntryFrom(index.entries, name, version, 0);
    if k < |index.entries| then Some(index.entries[k]) else None
  }

  /**
   * getEntry: the direct match when there is one; otherwise the first alias with this name
   * whose alias string is the version ("latest" when the version is null) is resolved
   * with _getEntry, whatever that gives; with no such alias the result is null.
   */
  function GetEntry(index: ImageNameIndex, name: string, version: Option<string>): (r: Option<Entry>)
    ensures LookupEntry(index, name, version).Some? ==> r == LookupEntry(index, name, version)
    ensures r.Some? ==> r.value in index.entries && r.value.name == name
    ensures LookupEntry(index, name, version).None? ==>
      var k := FirstAliasFrom(index.aliases, name, version.GetOr("latest"), 0);
      r == if k < |index.aliases| then LookupEntry(index, name, Some(index.aliases[k].version)) else None
  {
    var direct := LookupEntry(index, name, version);
    if direct.Some? then direct
    else
      var wanted := version.GetOr("latest");
      var k := FirstAliasFrom(index.aliases, name, wanted, 0);
      if k < |index.aliases| then LookupEntry(index, name, Some(index.aliases[k].version))
      else None
  }

  /** getEntry is null when neither an entry nor an alias with the name matches. */
  lemma NoMatchNoEntry(index: ImageNameIndex, name: string, version: Option<string>)
    requires forall j :: 0 <= j < |index.entries| ==> !EntryMatches(index.entries[j], name, version)
    requires forall j :: 0 <= j < |index.aliases| ==> !AliasMatches(index.aliases[j], name, version.GetOr("latest"))
    ensures GetEntry(index, name, version) == None
  {
  }

  /** A version that is named directly wins over any alias with the same string. */
  lemma DirectVersionWinsOverAlias(index: ImageNameIndex, name: string, version: string, k: nat)
    requires k < |index.entries| && index.entries[k] == Entry(name, version)
    ensures GetEntry(index, name, Some(version)).Some?
    ensures GetEntry(index, name, Some(version)).value == Entry(name, version)
  {
  }

  /**
   * With a null version the alias fallback can never produce an entry: the direct lookup
   * only fails when no entry has the name, and the alias's target is looked up under the
   * same name. So the "latest" default never changes getEntry's result.
   */
  lemma NullVersionNeedsNoAlias(index: ImageNameIndex, name: string)
    ensures GetEntry(index, name, None) == LookupEntry(index, name, None)
  {
    if LookupEntry(index, name, None).None? {
      var k := FirstAliasFrom(index.aliases, name, "latest", 0);
      if k < |index.aliases| {
        var target := Some(index.aliases[k].version);
        forall j | 0 <= j < |index.entries| ensures !EntryMatches(index.entries[j], name, target) {
          assert !EntryMatches(index.entries[j], name, None);
        }
      }
    }
  }

  /** An alias resolves a versioned request to the version it names, under the same name. */
  lemma AliasResolves(index: ImageNameIndex, name: string, alias: string, target: string)
    requires forall j :: 0 <= j < |index.entries| ==> !EntryMatches(index.entries[j], name, Some(alias))
    requires |index.aliases| > 0 && index.aliases[0] == Alias(name, alias, target)
    ensures GetEntry(index, name, Some(alias)) == LookupEntry(index, name, Some(target))
  {
  }
}

/**
 * Model of `selectArtifactsForProfile` in the Node validator: which artifact
 * ids a `--profile` selects. A flat `profiles` list only gates the profile
 * name and always selects the manifest artifacts; a `profiles` map selects
 * the list bound to the name. Every failure is reported and falls back to
 * the manifest artifacts.
 */
module ProfileNode {
  import opened Common
  import opened JsonDoc
  import opened NodeReport

  /** `{ selectedIds, usedProfileMap }`; the ids keep the order of the list they come from. */
  datatype Selection = Selection(selectedIds: seq<Option<Json>>, usedProfileMap: bool)

  /** The selection and the one error the function may report. */
  datatype Choice = Choice(selection: Selection, complaint: Option<Message>)

  /** `Array.isArray(manifest?.artifacts) ? manifest.artifacts : []`. */
  function ManifestArtifacts(manifest: Option<Json>): seq<Option<Json>>
  {
    match PropOf(manifest, "artifacts")
    case Some(JArr(items)) => Elements(items)
    case _ => []
  }

  /** `manifest?.profiles`. */
  function Profiles(manifest: Option<Json>): Option<Json>
  {
    PropOf(manifest, "profiles")
  }

  /** The profile map binds `profile` to an array. */
  predicate MapsToList(manifest: Option<Json>, profile: string)
  {
    match Profiles(manifest)
    case Some(JObj(_)) => Prop(Profiles(manifest).value, profile).Some? && Prop(Profiles(manifest).value, profile).value.JArr?
    case _ => false
  }

  /** The flat profile list names `profile`. */
  predicate ListsProfile(manifest: Option<Json>, profile: string)
  {
    match Profiles(manifest)
    case Some(JArr(items)) => JsIn(Some(JStr(profile)), Elements(items))
    case _ => false
  }

  function ChooseProfile(manifest: Option<Json>, profile: string): (c: Choice)
    // the mapped list is used exactly when the map binds the name to an array, and it is then the selection
    ensures c.selection.usedProfileMap <==> profile != "" && MapsToList(manifest, profile)
    ensures c.selection.usedProfileMap ==>
      c.selection.selectedIds == Elements(Prop(Profiles(manifest).value, profile).value.items)
    // every other outcome falls back to the manifest artifacts
    ensures !c.selection.usedProfileMap ==> c.selection.selectedIds == ManifestArtifacts(manifest)
    // silent exactly when there is no profile, the flat list names it, or the map is used
    ensures c.complaint.None? <==>
      profile == "" || ListsProfile(manifest, profile) || c.selection.usedProfileMap
    ensures c.complaint.Some? ==> c.complaint.value.level == Error
    ensures c.complaint.Some? && Profiles(manifest).Some? && Profiles(manifest).value.JArr? ==>
      c.complaint.value.code == "PROFILE_NOT_DECLARED"
    ensures c.complaint.Some? && Profiles(manifest).Some? && Profiles(manifest).value.JObj? ==>
      c.complaint.value.code == "PROFILE_MAP_INVALID"
    ensures c.complaint.Some? && !(Profiles(manifest).Some? && (Profiles(manifest).value.JArr? || Profiles(manifest).value.JObj?)) ==>
      c.complaint.value.code == "PROFILE_FIELD_INVALID"
  {
    var fallback := Selection(ManifestArtifacts(manifest), false);
    if profile == "" then Choice(fallback, None)
    else
      match Profiles(manifest)
      case Some(JArr(items)) =>
        if JsIn(Some(JStr(profile)), Elements(items)) then Choice(fallback, None)
        else Choice(fallback, Some(Message(Error, "PROFILE_NOT_DECLARED",
                                           "Profile '" + profile + "' is not listed in manifest.profiles")))
      case Some(JObj(fields)) =>
        var list := Prop(Profiles(manifest).value, profile);
        if list.Some? && list.value.JArr? then Choice(Selection(Elements(list.value.items), true), None)
        else Choice(fallback, Some(Message(Error, "PROFILE_MAP_INVALID",
                                           "manifest.profiles['" + profile + "'] must be an array of artifact.id")))
      case _ => Choice(fallback, Some(Message(Error, "PROFILE_FIELD_INVALID", "manifest.profiles has an invalid type")))
  }

  /** The messages a choice adds to the report. */
  function Complaints(c: Choice): seq<Message>
  {
    if c.complaint.Some? then [c.complaint.value] else []
  }

  /** `selectArtifactsForProfile(manifest, profile, report)`. */
  method SelectArtifactsForProfile(manifest: Option<Json>, profile: string, report: Report) returns (s: Selection)
    modifies report
    ensures s == ChooseProfile(manifest, profile).selection
    ensures report.messages == old(report.messages) + Complaints(ChooseProfile(manifest, profile))
    ensures report.errors == old(report.errors) + |Complaints(ChooseProfile(manifest, profile))|
    ensures report.warnings == old(report.warnings) && report.artifacts == old(report.artifacts)
    ensures report.artifactsTotal == old(report.artifactsTotal)
    ensures report.artifactsValidated == old(report.artifactsValidated)
    ensures report.artifactsSkipped == old(report.artifactsSkipped)
    ensures report.ndjsonLinesValidated == old(report.ndjsonLinesValidated)
    ensures report.finishedAt == old(report.finishedAt) && report.startedAt == old(report.startedAt)
  {
    var c := ChooseProfile(manifest, profile);
    if c.complaint.Some? {
      AddMessage(report, Error, c.complaint.value.code, c.complaint.value.message);
    }
    s := c.selection;
  }

  /** With a flat list the selection never depends on the profile: it is always the manifest artifacts. */
  lemma FlatListSelectsManifest(manifest: Option<Json>, profile: string, other: string)
    requires Profiles(manifest).Some? && Profiles(manifest).value.JArr?
    ensures ChooseProfile(manifest, profile).selection == ChooseProfile(manifest, other).selection
    ensures ChooseProfile(manifest, profile).selection == Selection(ManifestArtifacts(manifest), false)
  {
  }
}

/**
 * Model of `resolveProfileSelection` in PackageValidator.php. Unlike the
 * Node version, every failure selects nothing and is a usage error, and all
 * failures share the code `PROFILE_NOT_FOUND`. Only string ids are kept.
 */
module ProfilePhp {
  import opened Common
  import opened JsonDoc
  import opened PhpReport

  /** `['selected' => ..., 'usageError' => ...]` and the message reported on failure. */
  datatype Resolution = Resolution(selected: seq<string>, usageError: bool, complaint: Option<string>)

  /** `$obj->name` on a decoded object; `isset` is false for an absent or null property. */
  predicate IsSet(obj: map<string, Json>, name: string)
  {
    name in obj && obj[name] != JNull
  }

  /** The string ids of `$manifest->artifacts` when it is an array. */
  function ArtifactIds(manifest: map<string, Json>): seq<string>
  {
    if IsSet(manifest, "artifacts") && manifest["artifacts"].JArr? then StringItems(manifest["artifacts"].items) else []
  }

  /** The profile is a member of a flat list. */
  predicate Listed(manifest: map<string, Json>, profile: string)
  {
    IsSet(manifest, "profiles") && manifest["profiles"].JArr? && JStr(profile) in manifest["profiles"].items
  }

  /** A profile map binds the profile to an array. */
  predicate Mapped(manifest: map<string, Json>, profile: string)
  {
    IsSet(manifest, "profiles") && manifest["profiles"].JObj? && profile in manifest["profiles"].fields
    && manifest["profiles"].fields[profile].JArr?
  }

  function Resolve(manifest: Option<map<string, Json>>, profile: string): (r: Resolution)
    // a usage error exactly when a message is reported, and then nothing is selected
    ensures r.usageError <==> r.complaint.Some?
    ensures r.usageError ==> r.selected == []
    // success exactly when a flat list names the profile or a map binds it to an array
    ensures !r.usageError <==> manifest.Some? && (Listed(manifest.value, profile) || Mapped(manifest.value, profile))
    // a flat list selects the manifest's string artifact ids, a map its own string ids
    ensures !r.usageError && Listed(manifest.value, profile) ==> r.selected == ArtifactIds(manifest.value)
    ensures !r.usageError && Mapped(manifest.value, profile) ==>
      r.selected == StringItems(manifest.value["profiles"].fields[profile].items)
  {
    if manifest.None? || !IsSet(manifest.value, "profiles") then
      Resolution([], true, Some("Profile not found in manifest.profiles"))
    else
      var profiles := manifest.value["profiles"];
      if profiles.JArr? then
        if JStr(profile) !in profiles.items then
          Resolution([], true, Some("Profile '" + profile + "' is missing from manifest.profiles"))
        else Resolution(ArtifactIds(manifest.value), false, None)
      else if profiles.JObj? then
        if profile !in profiles.fields then
          Resolution([], true, Some("Profile '" + profile + "' is missing from manifest.profiles map"))
        else if !profiles.fields[profile].JArr? then
          Resolution([], true, Some("manifest.profiles['" + profile + "'] must be an array"))
        else Resolution(StringItems(profiles.fields[profile].items), false, None)
      else Resolution([], true, Some("manifest.profiles has an invalid type"))
  }

  /** The string elements of `items`, collected by the `foreach` loop. */
  method CollectStrings(items: seq<Json>) returns (selected: seq<string>)
    ensures selected == StringItems(items)
  {
    selected := [];
    for i := 0 to |items|
      invariant selected == StringItems(items[..i])
    {
      assert items[..i + 1][..i] == items[..i];
      if items[i].JStr? {
        selected := selected + [items[i].s];
      }
    }
    assert items[..|items|] == items;
  }

  /** `resolveProfileSelection($manifest, $profile, $report)`: every failure is one `PROFILE_NOT_FOUND` error. */
  method ResolveProfileSelection(manifest: Option<map<string, Json>>, profile: string, report: ValidationReport)
    returns (selected: seq<string>, usageError: bool)
    modifies report
    ensures selected == Resolve(manifest, profile).selected && usageError == Resolve(manifest, profile).usageError
    ensures !usageError ==> report.messages == old(report.messages) && report.errors == old(report.errors)
    ensures usageError ==>
      report.messages == old(report.messages) + [Message(Error, "PROFILE_NOT_FOUND", Resolve(manifest, profile).complaint.value)]
    ensures usageError ==> report.errors == old(report.errors) + 1
    ensures report.warnings == old(report.warnings) && report.artifacts == old(report.artifacts)
    ensures report.artifactsTotal == old(report.artifactsTotal)
    ensures report.artifactsValidated == old(report.artifactsValidated)
    ensures report.artifactsSkipped == old(report.artifactsSkipped)
    ensures report.ndjsonLinesValidated == old(report.ndjsonLinesValidated)
    ensures report.tool == old(report.tool) && report.startedAt == old(report.startedAt)
    ensures report.finishedAt == old(report.finishedAt)
    ensures report.targetType == old(report.targetType) && report.targetPath == old(report.targetPath)
  {
    if manifest.None? || !IsSet(manifest.value, "profiles") {
      report.AddMessage("error", "PROFILE_NOT_FOUND", "Profile not found in manifest.profiles");
      return [], true;
    }
    var profiles := manifest.value["profiles"];
    if profiles.JArr? {
      if JStr(profile) !in profiles.items {
        report.AddMessage("error", "PROFILE_NOT_FOUND", "Profile '" + profile + "' is missing from manifest.profiles");
        return [], true;
      }
      selected := [];
      if IsSet(manifest.value, "artifacts") && manifest.value["artifacts"].JArr? {
        selected := CollectStrings(manifest.value["artifacts"].items);
      }
      return selected, false;
    }
    if profiles.JObj? {
      if profile !in profiles.fields {
        report.AddMessage("error", "PROFILE_NOT_FOUND", "Profile '" + profile + "' is missing from manifest.profiles map");
        return [], true;
      }
      var list := profiles.fields[profile];
      if !list.JArr? {
        report.AddMessage("error", "PROFILE_NOT_FOUND", "manifest.profiles['" + profile + "'] must be an array");
        return [], true;
      }
      selected := CollectStrings(list.items);
      return selected, false;
    }
    report.AddMessage("error", "PROFILE_NOT_FOUND", "manifest.profiles has an invalid type");
    return [], true;
  }
}

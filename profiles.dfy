/** The hardware profiles: a fixed table of model choices per machine class,
    looked up by name. */
module Profiles {
  import opened Wrappers

  /** One row of the table. `description` is optional because the lookup of
      a description falls back to a default when the row lacks one. */
  datatype Profile = Profile(
    whisperModel: string,
    visionModel: string,
    textModel: string,
    visionOnCpu: bool,
    description: Option<string>)

  /** The table's names, in the table's order. */
  const Names: seq<string> := ["laptop", "pc"]

  const Table: map<string, Profile> := map[
    "laptop" := Profile("small", "llava-v1.6-mistral-7b", "phi-3-mini-4k-instruct", true,
                        Some("GTX 1050 Ti (4GB VRAM), 48GB RAM")),
    "pc" := Profile("large-v3", "llava-v1.6-34b", "llama-3.1-70b-instruct", false,
                    Some("RTX 4090 (24GB VRAM), 96GB RAM"))]

  /** The error that `get_profile` raises for a name outside the table. */
  datatype ProfileError = UnknownProfile(message: string)

  /** `get_profile`: the row for `name`, or the error naming the available
      profiles. Dafny values are immutable, so the row returned is already
      a copy: nothing a caller does with it reaches the table. */
  function GetProfile(name: string): (r: Result<Profile, ProfileError>)
    ensures r.Success? <==> name in Table
    ensures r.Success? ==> r.value == Table[name]
    ensures r.Failure? ==> r.error.message == "Unknown profile: " + name + ". Available profiles: laptop, pc"
  {
    if name !in Table then Failure(UnknownProfile("Unknown profile: " + name + ". Available profiles: laptop, pc"))
    else Success(Table[name])
  }

  /** `list_profiles`: the table's names, each once. */
  function ListProfiles(): (names: seq<string>)
    ensures |names| == |Table| == 2
    ensures forall n :: n in names <==> n in Table
    ensures forall i, j :: 0 <= i < j < |names| ==> names[i] != names[j]
  {
    assert Table.Keys == {"laptop", "pc"};
    Names
  }

  /** `get_profile_description`: never fails. */
  function GetProfileDescription(name: string): (d: string)
    ensures name !in Table ==> d == "Unknown profile: " + name
    ensures name in Table ==> d == Table[name].description.GetOr("No description")
  {
    if name !in Table then "Unknown profile: " + name
    else Table[name].description.GetOr("No description")
  }

  /** The two rows the tests rely on. */
  lemma KnownProfiles()
    ensures GetProfile("laptop").Success? && GetProfile("pc").Success?
    ensures GetProfile("laptop").value.whisperModel == "small" && GetProfile("laptop").value.visionOnCpu
    ensures GetProfile("pc").value.whisperModel == "large-v3" && !GetProfile("pc").value.visionOnCpu
    ensures GetProfile("laptop").value.description.Some? && GetProfile("pc").value.description.Some?
  {
  }

  /** `get_profile` hands out a copy of the row, so a caller that edits it
      leaves the table and later lookups alone. Profiles are values here, so
      the second half holds by value semantics alone; the lemma records that
      the copy equals the row it was taken from. */
  lemma LookupIsACopy(name: string, newWhisper: string)
    requires GetProfile(name).Success?
    ensures var p := GetProfile(name).value;
            var changed := p.(whisperModel := newWhisper);
            GetProfile(name).value == Table[name] && (newWhisper != p.whisperModel ==> changed != Table[name])
  {
  }
}

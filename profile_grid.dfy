/**
 * The student-profile grid (`src/components/ProfileGrid.tsx`): a profile list loaded
 * from storage or seeded with three defaults, and an "add" action that appends a new
 * profile and writes the list back. The `studentProfiles` storage entry is a field
 * holding the stored list (JSON encoding is not modelled); the name typed into
 * `prompt` and `Date.now()` are parameters.
 */
module ProfileGrid {
  import opened Common
  import opened Text

  datatype Profile = Profile(
    id: string,
    name: string,
    avatar: string,
    level: nat,
    progress: nat,
    streak: nat,
    lastActive: string,
    subjects: seq<string>)

  function DefaultProfiles(): seq<Profile>
  {
    [ Profile("1", "Alex Johnson", "\U{1F466}", 5, 78, 12, "2 hours ago", ["Math", "Science"]),
      Profile("2", "Maria Garcia", "\U{1F467}", 7, 92, 25, "30 minutes ago", ["English", "History"]),
      Profile("3", "David Chen", "\U{1F9D2}", 3, 45, 5, "1 day ago", ["Math", "Art"]) ]
  }

  /** The three defaults have distinct ids and names. */
  lemma DefaultProfilesDistinct()
    ensures |DefaultProfiles()| == 3
    ensures forall i, j :: 0 <= i < j < 3 ==>
      DefaultProfiles()[i].id != DefaultProfiles()[j].id && DefaultProfiles()[i].name != DefaultProfiles()[j].name
  {
  }

  /** The record `addNewProfile` builds for a typed name. */
  function NewProfile(name: string, now: nat): (p: Profile)
    ensures p.id == NatToString(now) && p.name == name
    ensures p.avatar == "\U{1F393}" && p.level == 1 && p.progress == 0 && p.streak == 0
    ensures p.lastActive == "Just created" && p.subjects == []
  {
    Profile(NatToString(now), name, "\U{1F393}", 1, 0, 0, "Just created", [])
  }

  class Grid {
    var profiles: seq<Profile>
    /** The `studentProfiles` storage entry: absent, or the list last written. */
    var storage: Option<seq<Profile>>

    /** Once loaded, the list on screen is the list in storage. */
    predicate Synced()
      reads this
    {
      storage == Some(profiles)
    }

    constructor (stored: Option<seq<Profile>>)
      ensures profiles == [] && storage == stored
    {
      profiles := [];
      storage := stored;
    }

    /** The mount effect: a saved list is used as it is; otherwise the defaults are shown and saved. */
    method Load()
      modifies this
      ensures Synced()
      ensures old(storage).Some? ==> profiles == old(storage).value
      ensures old(storage).None? ==> profiles == DefaultProfiles()
    {
      if storage.Some? {
        profiles := storage.value;
      } else {
        profiles := DefaultProfiles();
        storage := Some(profiles);
      }
    }

    /** `addNewProfile`: a cancelled prompt (`None`) or an empty name changes nothing. */
    method AddNewProfile(name: Option<string>, now: nat)
      modifies this
      ensures name.None? || name.value == "" ==> profiles == old(profiles) && storage == old(storage)
      ensures name.Some? && name.value != "" ==>
        profiles == old(profiles) + [NewProfile(name.value, now)] && Synced()
      ensures old(Synced()) ==> Synced()
    {
      if name.Some? && name.value != "" {
        var updated := profiles + [NewProfile(name.value, now)];
        profiles := updated;
        storage := Some(updated);
      }
    }
  }
}

/** The user slice: notification preferences and a profile, each a record
    that updates merge into key by key, plus a loading flag and an error. */
module Users {
  import opened Common

  /** A preference value: the flags, the reminder lead times in minutes,
      and the digest time of day. */
  datatype PrefValue = Flag(on: bool) | Minutes(times: seq<int>) | TimeOfDay(text: string)

  type Preferences = map<string, PrefValue>

  const DefaultPreferences: Preferences := map[
    "emailNotifications" := Flag(true),
    "upcomingNotifications" := Flag(true),
    "overdueNotifications" := Flag(true),
    "reminderTimes" := Minutes([15, 60, 1440]),
    "dailyDigest" := Flag(true),
    "digestTime" := TimeOfDay("09:00")
  ]

  const InitialProfile: map<string, string> := map["name" := "", "email" := "", "role" := ""]

  /** `{ ...base, ...payload }`: the payload's keys take its values, every
      other key of the base keeps its value, and no other key appears. */
  function Spread<V>(base: map<string, V>, payload: map<string, V>): (r: map<string, V>)
    ensures r.Keys == base.Keys + payload.Keys
    ensures forall k :: k in payload ==> r[k] == payload[k]
    ensures forall k :: k in base && k !in payload ==> r[k] == base[k]
  {
    base + payload
  }

  /** Two updates in a row are one update with both payloads, the second
      winning; the same update twice is the update once. */
  lemma SpreadCompose<V>(base: map<string, V>, first: map<string, V>, second: map<string, V>)
    ensures Spread(Spread(base, first), second) == Spread(base, Spread(first, second))
    ensures Spread(Spread(base, first), first) == Spread(base, first)
  {
    var lhs, rhs := Spread(Spread(base, first), second), Spread(base, Spread(first, second));
    assert lhs.Keys == rhs.Keys;
    forall k | k in lhs.Keys
      ensures lhs[k] == rhs[k]
    {
    }
  }

  class UserSlice {
    var preferences: Preferences
    var profile: map<string, string>
    var isLoading: bool
    var error: Option<string>

    constructor()
      ensures preferences == DefaultPreferences && profile == InitialProfile
      ensures !isLoading && error.None?
    {
      preferences := DefaultPreferences;
      profile := InitialProfile;
      isLoading := false;
      error := None;
    }

    /** `updateUserPreferences(payload)`. */
    method UpdateUserPreferences(payload: Preferences)
      modifies this`preferences
      ensures preferences == Spread(old(preferences), payload)
    {
      preferences := preferences + payload;
    }

    /** `setUserProfile(payload)`. */
    method SetUserProfile(payload: map<string, string>)
      modifies this`profile
      ensures profile == Spread(old(profile), payload)
    {
      profile := profile + payload;
    }

    /** `setLoading(flag)`: nothing but the flag changes. */
    method SetLoading(flag: bool)
      modifies this`isLoading
      ensures isLoading == flag
    {
      isLoading := flag;
    }

    /** `setError(message)`. */
    method SetError(message: Option<string>)
      modifies this`error
      ensures error == message
    {
      error := message;
    }

    /** `resetError()`. */
    method ResetError()
      modifies this`error
      ensures error.None?
    {
      error := None;
    }
  }
}

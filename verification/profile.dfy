/** The profile middleware of src/middleware/profile.js: a selected profile's
    stored configuration is copied over the parsed arguments. The profile
    store (`allProfiles`, `loadProfileConfig`) is a parameter: its names are
    the map's keys and each value is that profile's configuration. */
module Profile {

  import opened Wrappers
  import opened JsValues

  const PROFILE_NOT_FOUND: string := "Profile not found"

  function ArgOf(args: map<string, JsValue>, key: string): JsValue {
    if key in args then args[key] else Undefined
  }

  /** `profileMiddleware`: no truthy `profile` leaves the arguments alone; an
      unknown profile throws before anything is written; otherwise every key
      of the profile's configuration is written over the arguments. */
  function ProfileOverlay(args: map<string, JsValue>, profiles: map<string, map<string, JsValue>>)
    : (r: Result<map<string, JsValue>, string>)
    ensures !Truthy(ArgOf(args, "profile")) ==> r == Ok(args)
    ensures r.Err? <==> Truthy(ArgOf(args, "profile")) && !(ArgOf(args, "profile").Str? && ArgOf(args, "profile").s in profiles)
    ensures r.Err? ==> r.error == PROFILE_NOT_FOUND
    ensures r.Ok? && Truthy(ArgOf(args, "profile")) ==>
      var config := profiles[ArgOf(args, "profile").s];
      && r.value.Keys == args.Keys + config.Keys
      && (forall k :: k in config ==> r.value[k] == config[k])
      && (forall k :: k in args && k !in config ==> r.value[k] == args[k])
  {
    var profile := ArgOf(args, "profile");
    if !Truthy(profile) then Ok(args)
    else if !(profile.Str? && profile.s in profiles) then Err(PROFILE_NOT_FOUND)
    else Ok(args + profiles[profile.s])
  }
}

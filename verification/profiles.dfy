/** Profile creation and login from the sidebar. Profiles are stored one per
    name; the store is modelled as a map from profile name to the parsed
    profile, an unreadable or missing file being an absent key. */
module Profiles {
  import opened Wrappers
  import Height
  import Exercises

  datatype Gender = Male | Female | OtherGender
  datatype Goal = Strength | Hypertrophy | Endurance | Recomposition
  datatype Theme = Light | Dark | Minimal

  /** The profile's settings document. `warmup` is None when the key is absent. */
  datatype Settings = Settings(theme: Theme, coaching: bool, warmup: Option<bool>)

  /** Settings a new profile starts with: light theme, coaching tips on, warm-up on. */
  const DefaultSettings := Settings(Light, true, Some(true))

  datatype Profile = Profile(
    name: string, email: string, passwordHash: string, age: int,
    heightInches: nat, weight: int, gender: Gender, goal: Goal,
    equipment: seq<string>, dayCycle: seq<string>, settings: Settings,
    customExercises: seq<Exercises.Exercise>)

  /** What the new-profile form holds when "Create Profile" is pressed. */
  datatype ProfileForm = ProfileForm(
    name: string, email: string, password: string, age: int, height: string,
    weight: int, gender: Gender, goal: Goal, equipment: seq<string>)

  /** The sidebar message shown after an action. */
  datatype Notice = Created(name: string) | InvalidHeightFormat | Welcome(name: string) | InvalidPassword

  /** The stored profiles, the logged-in profile and the settings loaded at login
      (None while nothing has been loaded). */
  datatype AppState = AppState(profiles: map<string, Profile>, current: Option<string>,
                               sessionSettings: Option<Settings>)

  /** The placeholder entry listed first in the profile selector. Choosing it
      opens the new-profile form instead of the login prompt. */
  const NewProfileChoice: string := "<New Profile>"

  /** Whether the profile tabs are shown: a current profile is set and its
      name is not empty (an empty name counts as no profile). */
  predicate SignedIn(st: AppState) {
    st.current.Some? && st.current.value != ""
  }

  /** Builds the profile record from the form, or fails on an unreadable
      height. The password is stored only through `hash`, the one-way digest
      the application uses. */
  function BuildProfile(form: ProfileForm, hash: string -> string): (r: Result<Profile, Notice>)
    ensures r.Failure? <==> Height.ParseHeight(form.height).None?
    ensures r.Failure? ==> r.error == InvalidHeightFormat
    ensures r.Success? ==>
              && Some(r.value.heightInches) == Height.ParseHeight(form.height)
              && r.value.passwordHash == hash(form.password)
              && r.value.name == form.name && r.value.email == form.email
              && r.value.age == form.age && r.value.weight == form.weight
              && r.value.gender == form.gender && r.value.goal == form.goal
              && r.value.equipment == form.equipment
              && r.value.dayCycle == [] && r.value.customExercises == []
              && r.value.settings == DefaultSettings
  {
    match Height.ParseHeight(form.height)
    case None => Failure(InvalidHeightFormat)
    case Some(inches) =>
      Success(Profile(form.name, form.email, hash(form.password), form.age, inches,
                      form.weight, form.gender, form.goal, form.equipment, [],
                      DefaultSettings, []))
  }

  /** Pressing "Create Profile": on a bad height nothing is stored and the
      logged-in profile is unchanged; otherwise the profile is saved under its
      name (replacing any profile of that name) and becomes the current one. */
  function CreateProfile(st: AppState, form: ProfileForm, hash: string -> string): (r: (AppState, Notice))
    ensures Height.ParseHeight(form.height).None? ==> r == (st, InvalidHeightFormat)
    ensures Height.ParseHeight(form.height).Some? ==>
              && r.1 == Created(form.name)
              && form.name in r.0.profiles
              && r.0.profiles == st.profiles[form.name := r.0.profiles[form.name]]
              && r.0.profiles[form.name].heightInches == Height.ParseHeight(form.height).value
              && r.0.current == Some(form.name)
              && r.0.sessionSettings == st.sessionSettings
    ensures BuildProfile(form, hash).Success? ==>
              r.0.profiles == st.profiles[form.name := BuildProfile(form, hash).value]
  {
    match BuildProfile(form, hash)
    case Failure(notice) => (st, notice)
    case Success(prof) =>
      (st.(profiles := st.profiles[form.name := prof], current := Some(form.name)), Created(form.name))
  }

  /** Pressing "Login" for profile `choice`: succeeds exactly when the profile
      loads and the digest of the typed password matches the stored one; then
      that profile becomes current and its settings are loaded. A failed
      attempt leaves the state unchanged. */
  function Login(st: AppState, choice: string, password: string, hash: string -> string): (r: (AppState, Notice))
    ensures r.1.Welcome? <==> choice in st.profiles && hash(password) == st.profiles[choice].passwordHash
    ensures r.1.Welcome? ==>
              && r.1.name == st.profiles[choice].name
              && r.0 == st.(current := Some(choice), sessionSettings := Some(st.profiles[choice].settings))
    ensures !r.1.Welcome? ==> r == (st, InvalidPassword)
  {
    if choice in st.profiles && hash(password) == st.profiles[choice].passwordHash then
      var prof := st.profiles[choice];
      (st.(current := Some(choice), sessionSettings := Some(prof.settings)), Welcome(prof.name))
    else (st, InvalidPassword)
  }

  /** A profile just created can be logged into with the same password, which
      signs the user in and loads the default settings. This needs a name
      that the login prompt can reach: not the selector's placeholder, which
      opens the new-profile form, and not empty, which counts as no profile. */
  lemma CreateThenLogin(st: AppState, form: ProfileForm, hash: string -> string)
    requires Height.ParseHeight(form.height).Some?
    requires form.name != NewProfileChoice && form.name != ""
    ensures var (st1, _) := CreateProfile(st, form, hash);
            var (st2, notice) := Login(st1, form.name, form.password, hash);
            notice == Welcome(form.name) && st2.current == Some(form.name)
            && SignedIn(st2) && st2.sessionSettings == Some(DefaultSettings)
  {
  }

  /** A profile with an empty name is still saved and assigned as current,
      yet the app stays signed out. */
  lemma EmptyNameStaysSignedOut(st: AppState, form: ProfileForm, hash: string -> string)
    requires Height.ParseHeight(form.height).Some? && form.name == ""
    ensures "" in CreateProfile(st, form, hash).0.profiles
    ensures !SignedIn(CreateProfile(st, form, hash).0)
  {
  }

  /** A rejected height leaves the stored profiles exactly as they were,
      whatever else the form says. */
  lemma RejectedHeightStoresNothing(st: AppState, form: ProfileForm, hash: string -> string)
    requires Height.ParseHeight(form.height).None?
    ensures CreateProfile(st, form, hash).0.profiles == st.profiles
  {
  }

  /** A form whose height was written out as feet and inches creates a profile
      of feet * 12 + inches inches. */
  lemma CreatedHeight(st: AppState, form: ProfileForm, hash: string -> string, feet: nat, inches: nat)
    requires form.height == Height.FormatHeight(feet, inches)
    ensures CreateProfile(st, form, hash).1 == Created(form.name)
    ensures CreateProfile(st, form, hash).0.profiles[form.name].heightInches == feet * 12 + inches
  {
    Height.ParseFormatRoundTrip(feet, inches);
  }
}

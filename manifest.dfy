/** The decoded application manifest and the scan that picks its launch
    activity (`parseManifest` in main.go). Decoding the binary XML itself is
    done by a library outside this model; its result is the `Manifest`
    value below. */
module Manifest {
  import opened Common

  const MainAction := "android.intent.action.MAIN"
  const LauncherCategory := "android.intent.category.LAUNCHER"

  /** An `<intent-filter>`: its action name and its category name, each
      empty when the element is absent. */
  datatype IntentFilter = IntentFilter(action: string, category: string)

  /** An `<activity>` with its intent filters in declaration order. */
  datatype Activity = Activity(name: string, filters: seq<IntentFilter>)

  /** The decoded manifest: package name and activities in declaration order. */
  datatype Manifest = Manifest(packageName: string, activities: seq<Activity>)

  /** What `parse` prints: the JSON object with these two fields. */
  datatype ParseOutput = ParseOutput(packageName: string, launchActivity: string)

  predicate IsLauncherFilter(f: IntentFilter)
  {
    f.action == MainAction && f.category == LauncherCategory
  }

  predicate IsLauncher(a: Activity)
  {
    exists f :: f in a.filters && IsLauncherFilter(f)
  }

  /** The position of the first activity, in declaration order, that has a
      main/launcher filter; None when there is none. */
  function FirstLauncher(acts: seq<Activity>): (r: Option<nat>)
    ensures r.Some? ==> r.value < |acts| && IsLauncher(acts[r.value])
    ensures r.Some? ==> forall j :: 0 <= j < r.value ==> !IsLauncher(acts[j])
    ensures r.None? <==> forall j :: 0 <= j < |acts| ==> !IsLauncher(acts[j])
  {
    if acts == [] then None
    else if IsLauncher(acts[0]) then Some(0)
    else
      match FirstLauncher(acts[1..])
      case None => None
      case Some(k) => Some(k + 1)
  }

  /** The launch activity's name, or the empty string (the zero value of
      the Go record) when no activity qualifies. */
  function LaunchName(m: Manifest): (r: string)
    ensures (forall j :: 0 <= j < |m.activities| ==> !IsLauncher(m.activities[j])) ==> r == ""
    ensures forall k :: 0 <= k < |m.activities| && IsLauncher(m.activities[k])
                        && (forall j :: 0 <= j < k ==> !IsLauncher(m.activities[j]))
                        ==> r == m.activities[k].name
  {
    match FirstLauncher(m.activities)
    case None => ""
    case Some(k) => m.activities[k].name
  }

  /** The nested scan of `parseManifest`: activities in order, and within
      each its filters in order; the first main/launcher filter ends both
      loops (the `goto FOUND`). */
  method ResolveLaunchActivity(m: Manifest) returns (name: string)
    ensures name == LaunchName(m)
  {
    name := "";
    var i := 0;
    while i < |m.activities|
      invariant 0 <= i <= |m.activities|
      invariant forall j :: 0 <= j < i ==> !IsLauncher(m.activities[j])
    {
      var act := m.activities[i];
      var f := 0;
      while f < |act.filters|
        invariant 0 <= f <= |act.filters|
        invariant forall g :: 0 <= g < f ==> !IsLauncherFilter(act.filters[g])
      {
        if IsLauncherFilter(act.filters[f]) {
          name := act.name;
          FirstLauncherIs(m.activities, i);
          return;
        }
        f := f + 1;
      }
      i := i + 1;
    }
    NoLauncher(m.activities);
  }

  /** When activity `i` is a launcher and none before it is, `i` is the
      first launcher. */
  lemma {:induction false} FirstLauncherIs(acts: seq<Activity>, i: nat)
    requires i < |acts| && IsLauncher(acts[i])
    requires forall j :: 0 <= j < i ==> !IsLauncher(acts[j])
    ensures FirstLauncher(acts) == Some(i)
  {
    if i > 0 {
      assert !IsLauncher(acts[0]);
      FirstLauncherIs(acts[1..], i - 1);
    }
  }

  lemma NoLauncher(acts: seq<Activity>)
    requires forall j :: 0 <= j < |acts| ==> !IsLauncher(acts[j])
    ensures FirstLauncher(acts) == None
  {
  }

  /** `parseManifest` after decoding: the package name and the launch
      activity's name, produced whether or not a launcher exists. */
  method ParseManifest(m: Manifest) returns (out: ParseOutput)
    ensures out.packageName == m.packageName
    ensures out.launchActivity == LaunchName(m)
  {
    var launch := ResolveLaunchActivity(m);
    out := ParseOutput(m.packageName, launch);
  }

  /** A manifest with one launcher activity names that activity. */
  lemma SingleLauncher(pkg: string, act: string)
    ensures LaunchName(Manifest(pkg, [Activity(act, [IntentFilter(MainAction, LauncherCategory)])])) == act
  {
    var a := Activity(act, [IntentFilter(MainAction, LauncherCategory)]);
    assert IsLauncherFilter(a.filters[0]);
  }

  /** Adding activities after the declared ones never changes an existing
      launch activity: the first match wins. */
  lemma {:induction false} LaunchStableUnderAppend(acts: seq<Activity>, more: seq<Activity>)
    requires FirstLauncher(acts).Some?
    ensures FirstLauncher(acts + more) == FirstLauncher(acts)
  {
    var k := FirstLauncher(acts).value;
    assert (acts + more)[k] == acts[k];
    forall j | 0 <= j < k ensures !IsLauncher((acts + more)[j]) {
      assert (acts + more)[j] == acts[j];
    }
    FirstLauncherIs(acts + more, k);
  }
}

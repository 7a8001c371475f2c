/** `Bundle` accessors: Info.plist strings with an "Unknown" fallback. */
module BundleInfo {
  import opened Wrappers

  /** A property-list value: only strings matter here. */
  datatype PlistValue = PlistString(text: string) | PlistOther

  /** A bundle, seen through its (possibly missing) `infoDictionary`. */
  datatype Bundle = Bundle(infoDictionary: Option<map<string, PlistValue>>)

  const Unknown: string := "Unknown"

  /** True when the bundle's Info.plist holds a string under `key`. */
  predicate HasString(b: Bundle, key: string) {
    b.infoDictionary.Some? && key in b.infoDictionary.value && b.infoDictionary.value[key].PlistString?
  }

  /** `infoDictionary?[key] as? String ?? "Unknown"`. */
  function InfoString(b: Bundle, key: string): (r: string)
    ensures HasString(b, key) ==> r == b.infoDictionary.value[key].text
    ensures !HasString(b, key) ==> r == Unknown
  {
    match b.infoDictionary
    case None => Unknown
    case Some(info) =>
      if key in info then
        match info[key]
        case PlistString(text) => text
        case PlistOther => Unknown
      else Unknown
  }

  /** `appName`. */
  function AppName(b: Bundle): (r: string)
    ensures !HasString(b, "CFBundleName") ==> r == Unknown
    ensures HasString(b, "CFBundleName") ==> r == b.infoDictionary.value["CFBundleName"].text
  {
    InfoString(b, "CFBundleName")
  }

  /** `appVersionShort`. */
  function AppVersionShort(b: Bundle): (r: string)
    ensures !HasString(b, "CFBundleShortVersionString") ==> r == Unknown
    ensures HasString(b, "CFBundleShortVersionString") ==> r == b.infoDictionary.value["CFBundleShortVersionString"].text
  {
    InfoString(b, "CFBundleShortVersionString")
  }

  /** `appVersionBuild`. */
  function AppVersionBuild(b: Bundle): (r: string)
    ensures !HasString(b, "CFBundleVersion") ==> r == Unknown
    ensures HasString(b, "CFBundleVersion") ==> r == b.infoDictionary.value["CFBundleVersion"].text
  {
    InfoString(b, "CFBundleVersion")
  }

  /** `appVersionLong`: "short (build)". */
  function AppVersionLong(b: Bundle): (r: string)
    ensures |r| == |AppVersionShort(b)| + |AppVersionBuild(b)| + 3
    ensures r[..|AppVersionShort(b)|] == AppVersionShort(b)
    ensures r[|AppVersionShort(b)|..|AppVersionShort(b)| + 2] == " ("
    ensures r[|AppVersionShort(b)| + 2..|r| - 1] == AppVersionBuild(b)
    ensures r[|r| - 1] == ')'
  {
    var short, build := AppVersionShort(b), AppVersionBuild(b);
    var r := short + " (" + build + ")";
    assert r[|short|..|short| + 2] == " (" by {
      assert r[|short|] == ' ' && r[|short| + 1] == '(';
    }
    r
  }

  /** A bundle with no Info.plist reports "Unknown (Unknown)". */
  lemma NoInfoDictionary()
    ensures AppVersionLong(Bundle(None)) == "Unknown (Unknown)"
    ensures AppName(Bundle(None)) == Unknown
  {
  }

  predicate NoOpenParen(s: string) {
    forall i :: 0 <= i < |s| ==> s[i] != '('
  }

  /** The long version string determines both of its parts as long as the short version
      has no "(" in it (the fallback "Unknown" has none). */
  lemma VersionLongDeterminesParts(b1: Bundle, b2: Bundle)
    requires NoOpenParen(AppVersionShort(b1)) && NoOpenParen(AppVersionShort(b2))
    requires AppVersionLong(b1) == AppVersionLong(b2)
    ensures AppVersionShort(b1) == AppVersionShort(b2)
    ensures AppVersionBuild(b1) == AppVersionBuild(b2)
  {
    var s1, s2 := AppVersionShort(b1), AppVersionShort(b2);
    var long := AppVersionLong(b1);
    if |s1| < |s2| {
      NoParenAfterShorter(|s1|, s2, long);
      assert false;
    } else if |s2| < |s1| {
      NoParenAfterShorter(|s2|, s1, long);
      assert false;
    }
    assert s1 == long[..|s1|] == s2;
    assert AppVersionBuild(b1) == long[|s1| + 2..|long| - 1] == AppVersionBuild(b2);
  }

  /** After a short version with no "(" and its " (", there is no " (" starting at any
      earlier position. */
  lemma NoParenAfterShorter(n: nat, longer: string, long: string)
    requires n < |longer| && NoOpenParen(longer)
    requires |long| >= |longer| + 2 && long[..|longer|] == longer && long[|longer|..|longer| + 2] == " ("
    ensures long[n..n + 2] != " ("
  {
    if n + 1 < |longer| {
      assert long[n + 1] == longer[n + 1];
    } else {
      assert long[|longer|..|longer| + 2][0] == long[|longer|];
    }
    assert long[n..n + 2][1] == long[n + 1];
  }
}

/** The pure parts of the refresh-token service: naming a session's device from its
    User-Agent header, and the lifetime given to a stored token. */
module RefreshTokens {
  import opened Optional
  import opened Text

  const UnknownDevice: string := "Unknown Device"
  const AndroidDevice: string := "Android Device"

  // ---------------------------------------------------------------------------
  // The Android model capture `/Android.*;\s*([^)]+)\)/`

  /** The group part of the pattern after the `;` at `p`: `k` whitespace characters,
      then a run of non-`)` characters up to the `)` at `e`; the group is
      `s[p + 1 + k..e]`. */
  predicate GroupMatch(s: string, p: nat, k: nat, e: nat) {
    && p + 1 + k < e < |s|
    && (forall i :: p + 1 <= i < p + 1 + k ==> IsSpace(s[i]))
    && (forall i :: p + 1 + k <= i < e ==> s[i] != ')')
    && s[e] == ')'
  }

  /** A whole match of the pattern: `Android` at `a`, then `.*` (no line
      terminators) up to the `;` at `p`, then the group part. */
  predicate AndroidMatch(s: string, a: nat, p: nat, k: nat, e: nat) {
    && OccursAt(s, "Android", a)
    && a + 7 <= p < |s| && s[p] == ';'
    && (forall i :: a + 7 <= i < p ==> !IsLineTerminator(s[i]))
    && GroupMatch(s, p, k, e)
  }

  /** Length of the whitespace run starting at `q`. */
  function SpaceRun(s: string, q: nat): (w: nat)
    requires q <= |s|
    ensures q + w <= |s|
    ensures forall i :: q <= i < q + w ==> IsSpace(s[i])
    ensures q + w == |s| || !IsSpace(s[q + w])
    decreases |s| - q
  {
    if q < |s| && IsSpace(s[q]) then 1 + SpaceRun(s, q + 1) else 0
  }

  /** The first index at or after `q` holding `c`, or `|s|`. */
  function FirstFrom(s: string, q: nat, c: char): (e: nat)
    requires q <= |s|
    ensures q <= e <= |s|
    ensures forall i :: q <= i < e ==> s[i] != c
    ensures e == |s| || s[e] == c
    decreases |s| - q
  {
    if q == |s| || s[q] == c then q else FirstFrom(s, q + 1, c)
  }

  /** The first line terminator at or after `q`, or `|s|`: where `.*` must stop. */
  function LineEnd(s: string, q: nat): (e: nat)
    requires q <= |s|
    ensures q <= e <= |s|
    ensures forall i :: q <= i < e ==> !IsLineTerminator(s[i])
    ensures e == |s| || IsLineTerminator(s[e])
    decreases |s| - q
  {
    if q == |s| || IsLineTerminator(s[q]) then q else LineEnd(s, q + 1)
  }

  datatype Group = Group(k: nat, e: nat)

  /** The group part the engine settles on after the `;` at `p`: the greedy `\s*`
      gives back whitespace only when the group would otherwise be empty. */
  function GroupAt(s: string, p: nat): (g: Option<Group>)
    requires p < |s|
    ensures g.Some? ==> GroupMatch(s, p, g.value.k, g.value.e)
    ensures g.Some? ==> forall k: nat, e: nat :: k > g.value.k ==> !GroupMatch(s, p, k, e)
    ensures g.None? ==> forall k: nat, e: nat :: !GroupMatch(s, p, k, e)
  {
    var q := p + 1;
    var w := SpaceRun(s, q);
    var close := FirstFrom(s, q, ')');
    GroupAtFacts(s, p, w, close);
    if close == |s| then None
    else if q + w < close then Some(Group(w, close))
    else if q < close then Some(Group(close - q - 1, close))
    else None
  }

  /** What bounds every group part after `p`: the `)` closing it is the first one
      after `p + 1`, and its whitespace prefix lies inside the whitespace run. */
  lemma GroupAtFacts(s: string, p: nat, w: nat, close: nat)
    requires p < |s| && w == SpaceRun(s, p + 1) && close == FirstFrom(s, p + 1, ')')
    ensures forall k: nat, e: nat :: GroupMatch(s, p, k, e) ==> k <= w && e == close
    ensures forall k: nat, e: nat :: GroupMatch(s, p, k, e) && p + 1 + w >= close ==> p + 1 + k < close
  {
  }

  datatype Found = Found(a: nat, p: nat, k: nat, e: nat)

  /** Greedy `.*`: the last `;` in `[lo, hi)` after which the group part matches. */
  function LastSemicolon(s: string, lo: nat, hi: nat): (r: Option<(nat, Group)>)
    requires lo <= hi <= |s|
    ensures r.Some? ==> lo <= r.value.0 < hi && s[r.value.0] == ';' && GroupAt(s, r.value.0) == Some(r.value.1)
    ensures r.Some? ==> forall p: nat :: r.value.0 < p < hi && s[p] == ';' ==> GroupAt(s, p).None?
    ensures r.None? ==> forall p: nat :: lo <= p < hi && s[p] == ';' ==> GroupAt(s, p).None?
    decreases hi
  {
    if hi == lo then None
    else if s[hi - 1] == ';' && GroupAt(s, hi - 1).Some? then Some((hi - 1, GroupAt(s, hi - 1).value))
    else LastSemicolon(s, lo, hi - 1)
  }

  /** The match the engine finds when it starts at `a`, if any. */
  function MatchAt(s: string, a: nat): (r: Option<Found>)
    requires OccursAt(s, "Android", a)
    ensures r.Some? ==> r.value.a == a && AndroidMatch(s, a, r.value.p, r.value.k, r.value.e)
    ensures r.Some? ==> forall p: nat, k: nat, e: nat :: p > r.value.p && AndroidMatch(s, a, p, k, e) ==> false
    ensures r.Some? ==> forall k: nat, e: nat :: k > r.value.k && AndroidMatch(s, a, r.value.p, k, e) ==> false
    ensures r.None? ==> forall p: nat, k: nat, e: nat :: !AndroidMatch(s, a, p, k, e)
  {
    var end := LineEnd(s, a + 7);
    var last := LastSemicolon(s, a + 7, end);
    MatchAtFacts(s, a, end);
    if last.None? then None
    else Some(Found(a, last.value.0, last.value.1.k, last.value.1.e))
  }

  /** A match starting at `a` puts its `;` before the end of the line. */
  lemma MatchAtFacts(s: string, a: nat, end: nat)
    requires OccursAt(s, "Android", a) && end == LineEnd(s, a + 7)
    ensures forall p: nat, k: nat, e: nat :: AndroidMatch(s, a, p, k, e) ==> p < end && GroupAt(s, p).Some?
  {
  }

  /** The leftmost start, from `a` on, at which the pattern matches. */
  function SearchFrom(s: string, a: nat): (r: Option<Found>)
    ensures r.Some? ==> a <= r.value.a && AndroidMatch(s, r.value.a, r.value.p, r.value.k, r.value.e)
    ensures r.Some? ==> MatchAt(s, r.value.a) == r
    ensures r.Some? ==> forall b: nat, p: nat, k: nat, e: nat :: a <= b < r.value.a ==> !AndroidMatch(s, b, p, k, e)
    ensures r.None? ==> forall b: nat, p: nat, k: nat, e: nat :: a <= b ==> !AndroidMatch(s, b, p, k, e)
    decreases |s| - a
  {
    if a + 7 > |s| then None
    else if OccursAt(s, "Android", a) && MatchAt(s, a).Some? then MatchAt(s, a)
    else SearchFrom(s, a + 1)
  }

  /** `userAgent.match(...)`, reduced to the captured group. */
  function AndroidCapture(s: string): (r: Option<string>)
    ensures r.Some? <==> exists a: nat, p: nat, k: nat, e: nat :: AndroidMatch(s, a, p, k, e)
    ensures r.Some? ==> r.value != []
  {
    var f := SearchFrom(s, 0);
    if f.None? then None else Some(s[f.value.p + 1 + f.value.k..f.value.e])
  }

  /** The capture is the group of the match with the engine's priorities: the
      leftmost `Android`, then the last `;` on its line, then the longest
      whitespace run before the group. */
  lemma AndroidCaptureIsFirstMatch(s: string)
    requires AndroidCapture(s).Some?
    ensures exists a: nat, p: nat, k: nat, e: nat ::
              && AndroidMatch(s, a, p, k, e) && AndroidCapture(s) == Some(s[p + 1 + k..e])
              && (forall b: nat, p': nat, k': nat, e': nat :: b < a ==> !AndroidMatch(s, b, p', k', e'))
              && (forall p': nat, k': nat, e': nat :: p' > p ==> !AndroidMatch(s, a, p', k', e'))
              && (forall k': nat, e': nat :: k' > k ==> !AndroidMatch(s, a, p, k', e'))
  {
    var f := SearchFrom(s, 0).value;
    assert AndroidMatch(s, f.a, f.p, f.k, f.e);
  }

  // ---------------------------------------------------------------------------
  // Browser and device

  datatype Browser = Chrome | Edge | Firefox | Safari | NoBrowser

  function BrowserName(b: Browser): string {
    match b
    case Chrome => "Chrome"
    case Edge => "Edge"
    case Firefox => "Firefox"
    case Safari => "Safari"
    case NoBrowser => ""
  }

  /** The browser, by the first test that passes. Edge's User-Agent also names
      Chrome, and Chrome's also names Safari, hence the exclusions. */
  function DetectBrowser(ua: string): (b: Browser)
    ensures b == Chrome <==> Contains(ua, "Chrome") && !Contains(ua, "Edg")
    ensures b == Edge <==> Contains(ua, "Edg")
    ensures b == Firefox <==> !Contains(ua, "Chrome") && !Contains(ua, "Edg") && Contains(ua, "Firefox")
    ensures b == Safari <==>
              !Contains(ua, "Chrome") && !Contains(ua, "Edg") && !Contains(ua, "Firefox") && Contains(ua, "Safari")
  {
    if Contains(ua, "Chrome") && !Contains(ua, "Edg") then Chrome
    else if Contains(ua, "Edg") then Edge
    else if Contains(ua, "Firefox") then Firefox
    else if Contains(ua, "Safari") && !Contains(ua, "Chrome") then Safari
    else NoBrowser
  }

  /** The Android device name: the trimmed capture when the pattern matches. */
  function AndroidName(ua: string): (r: string)
    ensures AndroidCapture(ua).None? ==> r == AndroidDevice
    ensures AndroidCapture(ua).Some? ==> r == Trim(AndroidCapture(ua).value)
  {
    var m := AndroidCapture(ua);
    if m.Some? && m.value != [] then Trim(m.value) else AndroidDevice
  }

  /** The device, by the first test that passes, in the order iPhone, iPad, Mac,
      Windows, Android, Linux. */
  function DetectDevice(ua: string): (r: string)
  {
    if Contains(ua, "iPhone") then "iPhone"
    else if Contains(ua, "iPad") then "iPad"
    else if Contains(ua, "Mac OS X") || Contains(ua, "Macintosh") then "Mac"
    else if Contains(ua, "Windows NT 10.0") then "Windows PC"
    else if Contains(ua, "Windows NT") then "Windows PC"
    else if Contains(ua, "Android") then AndroidName(ua)
    else if Contains(ua, "Linux") then "Linux PC"
    else ""
  }

  /** An iPhone's User-Agent also says `Mac OS X`; the iPhone test comes first. */
  lemma IPhoneBeforeMac(ua: string)
    requires Contains(ua, "iPhone")
    ensures DetectDevice(ua) == "iPhone"
  {
  }

  /** Android phones are not taken for Linux machines although their User-Agent
      says `Linux`: the Android test comes first. */
  lemma AndroidBeforeLinux(ua: string)
    requires Contains(ua, "Android") && !Contains(ua, "iPhone") && !Contains(ua, "iPad")
    requires !Contains(ua, "Mac OS X") && !Contains(ua, "Macintosh") && !Contains(ua, "Windows NT")
    ensures DetectDevice(ua) == AndroidName(ua)
  {
    ContainsPrefix(ua, "Windows NT 10.0", "Windows NT");
  }

  /** Whatever contains a string contains each of its prefixes. */
  lemma ContainsPrefix(s: string, sub: string, pre: string)
    requires StartsWith(sub, pre)
    ensures Contains(s, sub) ==> Contains(s, pre)
  {
    ContainsIffOccurs(s, sub);
    if Contains(s, sub) {
      var i: nat :| OccursAt(s, sub, i);
      assert s[i..i + |pre|] == sub[..|pre|];
      ContainsAt(s, pre, i);
    }
  }

  /** The name assembled from the parts found: the device always leads when there
      is one, the browser always appears when there is one, and with neither the
      name is `Unknown Device`. */
  function Compose(device: string, browser: string): (r: string)
    ensures device != "" ==> StartsWith(r, device)
    ensures browser != "" ==> Contains(r, browser)
    ensures device == "" && browser == "" ==> r == UnknownDevice
    ensures device == "" && browser != "" ==> StartsWith(r, browser)
  {
    if device != "" && browser != "" then
      var r := device + " (" + browser + ")";
      assert OccursAt(r, browser, |device| + 2);
      ContainsAt(r, browser, |device| + 2);
      r
    else if device != "" then device
    else if browser != "" then
      assert StartsWith(browser + " Browser", browser);
      browser + " Browser"
    else UnknownDevice
  }

  /** `parseDeviceName`. */
  function ParseDeviceName(userAgent: Option<string>): (r: string)
    ensures !TruthyString(userAgent) ==> r == UnknownDevice
    ensures TruthyString(userAgent) && DetectDevice(userAgent.value) != "" ==> StartsWith(r, DetectDevice(userAgent.value))
    ensures TruthyString(userAgent) && DetectBrowser(userAgent.value) != NoBrowser ==>
              Contains(r, BrowserName(DetectBrowser(userAgent.value)))
  {
    if !TruthyString(userAgent) then UnknownDevice
    else Compose(DetectDevice(userAgent.value), BrowserName(DetectBrowser(userAgent.value)))
  }

  /** With neither a recognised device nor browser the session is an unknown device. */
  lemma NothingRecognised(ua: string)
    requires ua != [] && DetectDevice(ua) == "" && DetectBrowser(ua) == NoBrowser
    ensures ParseDeviceName(Some(ua)) == UnknownDevice
  {
  }

  // ---------------------------------------------------------------------------
  // Token lifetime

  /** Seven days in milliseconds. */
  const DefaultLifetime: int := 7 * 24 * 60 * 60 * 1000

  /** `expires_at` of `storeToken`: the given lifetime when truthy, else seven days. */
  function ExpiresAt(now: int, expiresIn: Option<int>): (r: int)
    ensures TruthyInt(expiresIn) ==> r - now == expiresIn.value
    ensures !TruthyInt(expiresIn) ==> r - now == 604800000
  {
    now + OrInt(expiresIn, DefaultLifetime)
  }
}

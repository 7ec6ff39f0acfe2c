/**
 * The user's own profile: the profile page (profile.js) with its editable
 * inputs and its image, and the profile pieces of the home page (home.js)
 * and of the wallet page (wallet.js): the avatar with its fallbacks, the
 * per-user image cache in `localStorage`, the admin button and logout.
 */
module Profile {
  import opened Wrappers
  import opened JsStrings
  import opened WebStorage
  import PageFetch

  // ---------------------------------------------------------------------------
  // The per-user image cache
  // ---------------------------------------------------------------------------

  const LocalKeyPrefix := "profileImage:"

  /** `localKey(id)`: the cache key of a user's image, `profileImage:<id>` with the numeric id in decimal. */
  function LocalKey(id: nat): (k: string)
    ensures StartsWith(k, LocalKeyPrefix) && k[|LocalKeyPrefix|..] == Decimal(id)
  {
    LocalKeyPrefix + Decimal(id)
  }

  /** Different users never share a cache entry. */
  lemma {:induction false} LocalKeyInjective(a: nat, b: nat)
    requires LocalKey(a) == LocalKey(b)
    ensures a == b
  {
    assert Decimal(a) == LocalKey(a)[|LocalKeyPrefix|..];
    assert Decimal(b) == LocalKey(b)[|LocalKeyPrefix|..];
    DecimalRoundTrip(a);
    DecimalRoundTrip(b);
  }

  /** `userId` is set once the profile came back with a truthy (non-zero) `id`. */
  predicate HasUserId(userId: Option<nat>) {
    userId.Some? && userId.value != 0
  }

  /**
   * The cached image: read only when `userId` is set, and kept only when the
   * stored value is a non-empty string.
   */
  function CachedImage(local: map<string, string>, userId: Option<nat>): (r: Option<string>)
    ensures !HasUserId(userId) ==> r.None?
    ensures HasUserId(userId) ==>
      (r.Some? <==> LocalKey(userId.value) in local && local[LocalKey(userId.value)] != "")
    ensures r.Some? ==> Truthy(r) && r.value == local[LocalKey(userId.value)]
  {
    if !HasUserId(userId) then None
    else
      var v := Get(local, LocalKey(userId.value));
      if Truthy(v) then v else None
  }

  /** An image cached for a user is the one found for that user afterwards. */
  lemma CachedImageAfterStore(local: map<string, string>, id: nat, dataUrl: string)
    requires id != 0 && dataUrl != ""
    ensures CachedImage(local[LocalKey(id) := dataUrl], Some(id)) == Some(dataUrl)
  {
  }

  /** Storing one user's image leaves every other user's cache entry as it was. */
  lemma {:induction false} CachedImageOtherUser(local: map<string, string>, id: nat, other: nat, dataUrl: string)
    requires other != id
    ensures CachedImage(local[LocalKey(id) := dataUrl], Some(other)) == CachedImage(local, Some(other))
  {
    if LocalKey(id) == LocalKey(other) {
      LocalKeyInjective(id, other);
    }
  }

  // ---------------------------------------------------------------------------
  // Avatar
  // ---------------------------------------------------------------------------

  datatype ImageView = IconShown | ImageShown(src: string)

  /** The pages that show the avatar; the wallet page has no cache fallback. */
  datatype AvatarPage = ProfileAvatar | HomeAvatar | WalletAvatar

  /**
   * `setProfileImageFromUrl(raw)` once the browser has settled:
   *   - no usable URL: the icon;
   *   - the direct load works: the URL with the cache-busting `t=<now>`;
   *   - else the authenticated blob fetch works: its object URL;
   *   - else (profile and home) the cached image, else the icon.
   * `directLoads` and `blobUrl` stand for what the browser and the server
   * answer; `cached` is `CachedImage` of the page's state.
   */
  function AvatarAfterLoad(page: AvatarPage, base: string, raw: Option<string>, now: nat,
                           directLoads: bool, blobUrl: Option<string>, cached: Option<string>): (r: ImageView)
    ensures PageFetch.ResolveImageUrl(base, raw).None? ==> r == IconShown
    ensures PageFetch.ResolveImageUrl(base, raw).Some? && directLoads ==>
      r == ImageShown(PageFetch.CacheBust(PageFetch.ResolveImageUrl(base, raw).value, now))
    ensures PageFetch.ResolveImageUrl(base, raw).Some? && !directLoads && blobUrl.Some? ==>
      r == ImageShown(blobUrl.value)
    ensures PageFetch.ResolveImageUrl(base, raw).Some? && !directLoads && blobUrl.None? ==>
      r == (if page != WalletAvatar && cached.Some? then ImageShown(cached.value) else IconShown)
  {
    var abs := PageFetch.ResolveImageUrl(base, raw);
    if abs.None? then IconShown
    else if directLoads then ImageShown(PageFetch.CacheBust(abs.value, now))
    else if blobUrl.Some? then ImageShown(blobUrl.value)
    else if page != WalletAvatar && cached.Some? then ImageShown(cached.value)
    else IconShown
  }

  /** The wallet's avatar never comes from the local cache. */
  lemma WalletIgnoresCache(base: string, raw: Option<string>, now: nat, directLoads: bool,
                           blobUrl: Option<string>, cached: Option<string>)
    ensures AvatarAfterLoad(WalletAvatar, base, raw, now, directLoads, blobUrl, cached)
         == AvatarAfterLoad(WalletAvatar, base, raw, now, directLoads, blobUrl, None)
  {
  }

  /** Without a profile image URL, profile and home show the cached image, else the icon. */
  function AvatarWithoutUrl(cached: Option<string>): (r: ImageView)
    ensures r == IconShown <==> cached.None?
    ensures cached.Some? ==> r == ImageShown(cached.value)
  {
    if cached.Some? then ImageShown(cached.value) else IconShown
  }

  // ---------------------------------------------------------------------------
  // home.js: admin button and logout
  // ---------------------------------------------------------------------------

  /** The two flags of the signed-in user (missing flags are false). */
  datatype UserFlags = UserFlags(isStaff: bool, isSuperuser: bool)

  /** `!!(data && (data.is_staff || data.is_superuser))`. */
  function IsAdmin(data: Option<UserFlags>): (r: bool)
    ensures r <==> data.Some? && (data.value.isStaff || data.value.isSuperuser)
  {
    match data
    case None => false
    case Some(flags) => flags.isStaff || flags.isSuperuser
  }

  const FirstNameKey := "firstName"

  /** Logout removes `authToken` and `firstName` from the session and nothing else. */
  method Logout(session: Storage)
    modifies session
    ensures session.items == old(session.items) - {PageFetch.AuthTokenKey, FirstNameKey}
    ensures PageFetch.SessionToken(session.items).None?
  {
    session.RemoveItem(PageFetch.AuthTokenKey);
    session.RemoveItem(FirstNameKey);
    assert session.items == old(session.items) - {PageFetch.AuthTokenKey} - {FirstNameKey};
  }

  // ---------------------------------------------------------------------------
  // profile.js: edit and cancel
  // ---------------------------------------------------------------------------

  /** One profile input: its element id, its value, whether it is disabled. */
  datatype Input = Input(id: string, value: string, disabled: bool)

  /**
   * `originalValues[input.id] = input.value` for the inputs in order, on top
   * of the recorded values `m` (a later input with the same id wins).
   */
  function Snapshot(m: map<string, string>, xs: seq<Input>): map<string, string>
    decreases |xs|
  {
    if xs == [] then m
    else Snapshot(m, xs[..|xs| - 1])[xs[|xs| - 1].id := xs[|xs| - 1].value]
  }

  /**
   * The value `input.value = originalValues[input.id]` gives: the recorded
   * value, or the string "undefined" when nothing was recorded.
   */
  function Restore(m: map<string, string>, id: string): (v: string)
    ensures id in m ==> v == m[id]
    ensures id !in m ==> v == "undefined"
  {
    if id in m then m[id] else "undefined"
  }

  predicate DistinctIds(xs: seq<Input>) {
    forall i, j :: 0 <= i < j < |xs| ==> xs[i].id != xs[j].id
  }

  /** With distinct ids, the snapshot records every input's own value. */
  lemma {:induction false} SnapshotRecords(m: map<string, string>, xs: seq<Input>, i: nat)
    requires DistinctIds(xs) && i < |xs|
    ensures xs[i].id in Snapshot(m, xs) && Snapshot(m, xs)[xs[i].id] == xs[i].value
    decreases |xs|
  {
    if i < |xs| - 1 {
      var p := xs[..|xs| - 1];
      assert p[i] == xs[i];
      assert DistinctIds(p);
      SnapshotRecords(m, p, i);
    }
  }

  /**
   * Editing then cancelling puts back every input's value from before the
   * edit, whatever was typed in between, provided the inputs have distinct
   * ids.
   */
  lemma EditThenCancelRestores(m: map<string, string>, before: seq<Input>, during: seq<Input>)
    requires DistinctIds(before) && |during| == |before|
    requires forall i :: 0 <= i < |before| ==> during[i].id == before[i].id
    ensures forall i :: 0 <= i < |during| ==> Restore(Snapshot(m, before), during[i].id) == before[i].value
  {
    forall i | 0 <= i < |during|
      ensures Restore(Snapshot(m, before), during[i].id) == before[i].value
    {
      SnapshotRecords(m, before, i);
    }
  }

  class ProfilePage {
    const local: Storage
    var inputs: seq<Input>
    var originalValues: map<string, string>
    var selectedFile: Option<string>
    var originalImageSrc: Option<string>
    var userId: Option<nat>
    var image: ImageView

    /** The page as loaded: read-only inputs, nothing recorded, no user id yet, the icon. */
    constructor (local: Storage, inputs: seq<Input>)
      ensures this.local == local && this.inputs == inputs
      ensures originalValues == map[] && selectedFile.None? && originalImageSrc.None?
      ensures userId.None? && image == IconShown
    {
      this.local := local;
      this.inputs := inputs;
      originalValues := map[];
      selectedFile := None;
      originalImageSrc := None;
      userId := None;
      image := IconShown;
    }

    /**
     * Records the user id from a profile response: `data.id` when truthy,
     * otherwise the previous value.
     */
    method RecordUserId(id: Option<nat>)
      modifies this`userId
      ensures userId == (if HasUserId(id) then id else old(userId))
    {
      if HasUserId(id) {
        userId := id;
      }
    }

    /**
     * Loading the profile records its image URL as the one Cancel goes back
     * to: the resolved `profile_image` when it is truthy, otherwise none.
     */
    method RecordLoadedImage(base: string, raw: Option<string>)
      modifies this`originalImageSrc
      ensures originalImageSrc == PageFetch.ResolveImageUrl(base, raw)
      ensures Truthy(originalImageSrc) <==> raw.Some? && Trim(raw.value) != ""
    {
      if Truthy(raw) {
        originalImageSrc := PageFetch.ResolveImageUrl(base, raw);
      } else {
        originalImageSrc := None;
      }
    }

    /**
     * A successful save: a returned image URL becomes the original image.
     * Without one, the cached image is shown when there is one; otherwise
     * the profile is loaded again and its image URL, `reloaded`, is
     * recorded as on the first load.
     */
    method RecordSavedImage(base: string, raw: Option<string>, reloaded: Option<string>)
      modifies this`originalImageSrc, this`image
      ensures Truthy(raw) ==> originalImageSrc == PageFetch.ResolveImageUrl(base, raw)
      ensures !Truthy(raw) && CachedImage(local.items, userId).Some? ==>
        originalImageSrc == old(originalImageSrc) && image == ImageShown(CachedImage(local.items, userId).value)
      ensures !Truthy(raw) && CachedImage(local.items, userId).None? ==>
        originalImageSrc == PageFetch.ResolveImageUrl(base, reloaded)
    {
      if Truthy(raw) {
        originalImageSrc := PageFetch.ResolveImageUrl(base, raw);
      } else {
        var shown := TryLoadLocalImage();
        if !shown {
          RecordLoadedImage(base, reloaded);
        }
      }
    }

    /**
     * `tryLoadLocalImage()`: false, without reading storage, when `userId`
     * is unset; otherwise shows the cached image when there is one.
     */
    method TryLoadLocalImage() returns (loaded: bool)
      modifies this`image
      ensures loaded <==> CachedImage(local.items, userId).Some?
      ensures loaded ==> image == ImageShown(CachedImage(local.items, userId).value)
      ensures !loaded ==> image == old(image)
    {
      if !HasUserId(userId) {
        return false;
      }
      var dataUrl := local.GetItem(LocalKey(userId.value));
      if Truthy(dataUrl) {
        image := ImageShown(dataUrl.value);
        return true;
      }
      return false;
    }

    /**
     * A new image file was chosen and read: it is previewed, remembered for
     * the save, and cached for the user when `userId` is set.
     */
    method PreviewSelected(file: string, dataUrl: string)
      modifies this`selectedFile, this`image, local
      ensures selectedFile == Some(file) && image == ImageShown(dataUrl)
      ensures HasUserId(userId) ==> local.items == old(local.items)[LocalKey(userId.value) := dataUrl]
      ensures !HasUserId(userId) ==> local.items == old(local.items)
    {
      selectedFile := Some(file);
      image := ImageShown(dataUrl);
      if HasUserId(userId) {
        local.SetItem(LocalKey(userId.value), dataUrl);
      }
    }

    /** Edit: each input's value is recorded, in order, and the input is enabled. */
    method Edit()
      modifies this`inputs, this`originalValues
      ensures originalValues == Snapshot(old(originalValues), old(inputs))
      ensures |inputs| == |old(inputs)|
      ensures forall i :: 0 <= i < |inputs| ==> inputs[i] == old(inputs)[i].(disabled := false)
    {
      var i := 0;
      while i < |inputs|
        invariant 0 <= i <= |inputs| == |old(inputs)|
        invariant originalValues == Snapshot(old(originalValues), old(inputs)[..i])
        invariant forall j :: 0 <= j < i ==> inputs[j] == old(inputs)[j].(disabled := false)
        invariant forall j :: i <= j < |inputs| ==> inputs[j] == old(inputs)[j]
      {
        assert old(inputs)[..i + 1][..i] == old(inputs)[..i];
        originalValues := originalValues[inputs[i].id := inputs[i].value];
        inputs := inputs[i := inputs[i].(disabled := false)];
        i := i + 1;
      }
      assert old(inputs)[..i] == old(inputs);
    }

    /**
     * Cancel: each input gets back its recorded value and is disabled, the
     * chosen file is dropped, and the image returns to the original URL, or
     * to the icon when there was none.
     */
    method Cancel()
      modifies this`inputs, this`selectedFile, this`image
      ensures |inputs| == |old(inputs)|
      ensures forall i :: 0 <= i < |inputs| ==>
        inputs[i] == old(inputs)[i].(value := Restore(originalValues, old(inputs)[i].id), disabled := true)
      ensures selectedFile.None?
      ensures image == (if Truthy(originalImageSrc) then ImageShown(originalImageSrc.value) else IconShown)
    {
      var i := 0;
      while i < |inputs|
        invariant 0 <= i <= |inputs| == |old(inputs)|
        invariant forall j :: 0 <= j < i ==>
          inputs[j] == old(inputs)[j].(value := Restore(originalValues, old(inputs)[j].id), disabled := true)
        invariant forall j :: i <= j < |inputs| ==> inputs[j] == old(inputs)[j]
      {
        inputs := inputs[i := inputs[i].(value := Restore(originalValues, inputs[i].id), disabled := true)];
        i := i + 1;
      }
      selectedFile := None;
      image := if Truthy(originalImageSrc) then ImageShown(originalImageSrc.value) else IconShown;
    }
  }
}

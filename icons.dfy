/**
 * Map icon resolution: which URL the presence shows for a map's icon. The
 * local asset store (Content.Map), the checksum hasher and the set of icon
 * hashes known to the icon server are inputs of the resolver.
 */
module Icons {
  import opened Text
  import opened Hex

  const IconBaseURL: string := "https://celestemodupdater.0x0a.de"
  const StaticPrefix: string := IconBaseURL + "/rich-presence-icons-static/"
  const HashPrefix: string := IconBaseURL + "/rich-presence-icons/"
  /** Where the GUI atlas keeps map icons in the asset store. */
  const AssetPrefix: string := "Graphics/Atlases/Gui/"
  const AreasPrefix: string := "areas/"
  const NullIcon: string := "areas/null"

  /** A static icon hosted on the icon server under its own name. */
  function StaticIconURL(name: string): string {
    StaticPrefix + name + ".png"
  }

  /** An icon hosted on the icon server under the hash of its image. */
  function HashIconURL(hash: string): string {
    HashPrefix + hash + ".png"
  }

  /**
   * What the resolver sees of the world: the asset store (path to the asset's
   * bytes), the checksum function and the known-hash set fetched at start-up.
   */
  datatype IconEnv = IconEnv(assets: map<string, seq<byte>>, hasher: seq<byte> -> seq<byte>, known: set<string>)

  /** The icon has a local image and is not the "no icon" sentinel, so its hash is computed. */
  predicate HashesIcon(icon: string, env: IconEnv) {
    icon != NullIcon && AssetPrefix + icon in env.assets
  }

  function IconHash(icon: string, env: IconEnv): string
    requires HashesIcon(icon, env)
  {
    HashString(env.hasher(env.assets[AssetPrefix + icon]))
  }

  /** The URL for a map icon, computed from scratch. */
  function GetMapIconURL(icon: string, env: IconEnv): (url: string)
    ensures IconBaseURL <= url
  {
    if !HashesIcon(icon, env) then
      if AreasPrefix <= icon then StaticIconURL(AsciiLower(icon[|AreasPrefix|..]))
      else StaticIconURL("null")
    else
      var hash := IconHash(icon, env);
      if hash in env.known then HashIconURL(hash) else StaticIconURL("everest")
  }

  /** A URL on the hashed-icon path rather than the static one. */
  predicate IsHashURL(url: string) {
    HashPrefix <= url
  }

  lemma StaticIsNotHash(name: string)
    ensures !IsHashURL(StaticIconURL(name))
  {
    var i := |IconBaseURL + "/rich-presence-icons"|;
    assert StaticIconURL(name)[i] == '-';
    assert HashPrefix[i] == '/';
  }

  /**
   * The resolver gives a hashed URL exactly when the icon's hash is computed
   * and the icon server knows it; every other outcome is a static icon.
   */
  lemma HashURLIff(icon: string, env: IconEnv)
    ensures IsHashURL(GetMapIconURL(icon, env)) <==> HashesIcon(icon, env) && IconHash(icon, env) in env.known
    ensures !IsHashURL(GetMapIconURL(icon, env)) ==> StaticPrefix <= GetMapIconURL(icon, env)
  {
    if !HashesIcon(icon, env) {
      if AreasPrefix <= icon {
        StaticIsNotHash(AsciiLower(icon[|AreasPrefix|..]));
      } else {
        StaticIsNotHash("null");
      }
    } else if IconHash(icon, env) !in env.known {
      StaticIsNotHash("everest");
    }
  }

  /** An icon whose hash the icon server knows resolves to the hashed URL of exactly that hash. */
  lemma KnownHashURL(icon: string, env: IconEnv)
    requires HashesIcon(icon, env) && IconHash(icon, env) in env.known
    ensures GetMapIconURL(icon, env) == HashIconURL(IconHash(icon, env))
  {
  }

  /** A hashed URL names the hash of the icon's own image, and no other. */
  lemma HashURLNamesImage(icon: string, env: IconEnv, other: seq<byte>)
    requires HashesIcon(icon, env) && IconHash(icon, env) in env.known
    requires GetMapIconURL(icon, env) == HashIconURL(HashString(other))
    ensures other == env.hasher(env.assets[AssetPrefix + icon])
  {
    var url := GetMapIconURL(icon, env);
    var n := |HashPrefix|;
    assert url[n..|url| - 4] == IconHash(icon, env);
    assert HashIconURL(HashString(other))[n..|url| - 4] == HashString(other);
    HashStringInjective(other, env.hasher(env.assets[AssetPrefix + icon]));
  }

  /** The "no icon" sentinel resolves to the generic static icon, whatever the assets and known hashes. */
  lemma NullIconIsGeneric(env: IconEnv)
    ensures GetMapIconURL(NullIcon, env) == StaticIconURL("null")
  {
    assert NullIcon[|AreasPrefix|..] == "null";
  }

  /**
   * An icon with a local image whose hash the icon server does not know shows
   * the Everest icon instead, never its own static name.
   */
  lemma UnknownHashFallback(icon: string, env: IconEnv)
    requires HashesIcon(icon, env) && IconHash(icon, env) !in env.known
    ensures GetMapIconURL(icon, env) == StaticIconURL("everest")
  {
  }

  /** An icon without a local image falls back to its lower-cased name under "areas/", with no hashing. */
  lemma MissingAssetFallback(icon: string, env: IconEnv)
    requires AssetPrefix + icon !in env.assets
    ensures AreasPrefix <= icon ==> GetMapIconURL(icon, env) == StaticIconURL(AsciiLower(icon[6..]))
    ensures !(AreasPrefix <= icon) ==> GetMapIconURL(icon, env) == StaticIconURL("null")
  {
  }

  /**
   * Looking an icon up through the cache: a stored URL wins over recomputing,
   * so the answer is the resolver's own whenever the cache agrees with it.
   */
  function CachedIconURL(cache: map<string, string>, icon: string, env: IconEnv): (url: string)
    ensures icon in cache ==> url == cache[icon]
    ensures CacheAgrees(cache, env) ==> url == GetMapIconURL(icon, env)
  {
    if icon in cache then cache[icon] else GetMapIconURL(icon, env)
  }

  /** The cache after a lookup: a miss stores the computed URL under the icon. */
  function Remember(cache: map<string, string>, icon: string, env: IconEnv): (c: map<string, string>)
    ensures icon in c && c[icon] == CachedIconURL(cache, icon, env)
    ensures cache.Keys <= c.Keys && c.Keys <= cache.Keys + {icon}
    ensures forall k :: k in cache ==> c[k] == cache[k]
  {
    if icon in cache then cache else cache[icon := GetMapIconURL(icon, env)]
  }

  /** Every cached URL is the one the resolver would compute now. */
  ghost predicate CacheAgrees(cache: map<string, string>, env: IconEnv) {
    forall k :: k in cache ==> cache[k] == GetMapIconURL(k, env)
  }

  /**
   * A second lookup of the same icon returns what the first returned and
   * leaves the cache as it is, even when the known-hash set or the assets have
   * changed in between.
   */
  lemma RememberIdempotent(cache: map<string, string>, icon: string, env: IconEnv, env': IconEnv)
    ensures CachedIconURL(Remember(cache, icon, env), icon, env') == CachedIconURL(cache, icon, env)
    ensures Remember(Remember(cache, icon, env), icon, env') == Remember(cache, icon, env)
  {
  }

  /** Lookups through an agreeing cache return exactly the resolver's URL, and keep the cache agreeing. */
  lemma RememberKeepsAgreement(cache: map<string, string>, icon: string, env: IconEnv)
    requires CacheAgrees(cache, env)
    ensures CachedIconURL(cache, icon, env) == GetMapIconURL(icon, env)
    ensures CacheAgrees(Remember(cache, icon, env), env)
  {
  }

}

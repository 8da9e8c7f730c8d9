/** Broadcast publications: their content, and the manifest checks a room makes before applying one. */
module Assets {
  import opened Common

  datatype Item = Item(id: int, kind: string, content: string, layout: string)
  datatype Page = Page(id: int, mode: string, items: seq<Item>, style: string)
  datatype Font = Font(id: int, filename: string, detail: string)
  datatype Asset = Asset(name: string, digest: string, size: int)
  datatype Snapshot = Snapshot(source: string, revision: int, pages: seq<Page>, fonts: seq<Font>,
                               config: map<string, string>)
  datatype Action = Sync | Start | Stop | Reset | Unrecognised
  datatype Publication = Publication(snapshot: Snapshot, assets: seq<Asset>, action: Action, mode: string)

  const MAX_IMAGE: int := 20 * 1024 * 1024
  const MAX_TOTAL: int := 512 * 1024 * 1024
  const FONT_EXTENSIONS: set<string> := {".ttf", ".woff", ".woff2"}
  const IMAGE_EXTENSIONS: set<string> := {".png", ".jpg", ".jpeg", ".gif", ".svg", ".webp"}

  predicate ValidMode(mode: string) {
    mode == "before" || mode == "contesting" || mode == "after"
  }

  predicate HexDigit(c: char) {
    '0' <= c <= '9' || 'a' <= c <= 'f'
  }

  /** A lower-case hexadecimal SHA-256. */
  predicate ValidDigest(digest: string) {
    |digest| == 64 && forall i :: 0 <= i < |digest| ==> HexDigit(digest[i])
  }

  function LowerChar(c: char): char {
    if 'A' <= c <= 'Z' then c - 'A' + 'a' else c
  }

  function Lower(s: string): (r: string)
    ensures |r| == |s| && forall i :: 0 <= i < |s| ==> r[i] == LowerChar(s[i])
  {
    seq(|s|, i requires 0 <= i < |s| => LowerChar(s[i]))
  }

  /** The extension of the part of the path before position n: its last dot onwards, "" without one. */
  function ExtensionBefore(path: string, n: nat): string
    requires n <= |path|
  {
    if n == 0 || path[n - 1] == '/' then ""
    else if path[n - 1] == '.' then path[n - 1..]
    else ExtensionBefore(path, n - 1)
  }

  function Extension(path: string): string {
    ExtensionBefore(path, |path|)
  }

  /** A name without directory part; "/" is its own base name but has no allowed extension. */
  predicate IsBaseName(name: string) {
    name == "/" || (name != "" && '/' !in name)
  }

  predicate ValidAssetName(kind: string, name: string) {
    && name != "" && IsBaseName(name) && name[0] != '.' && '\\' !in name && '\0' !in name
    && var extension := Lower(Extension(name));
    && ((kind == "fonts" && extension in FONT_EXTENSIONS) || (kind == "images" && extension in IMAGE_EXTENSIONS))
  }

  /** Position of the first slash, or the length when there is none. */
  function FirstSlash(s: string): (n: nat)
    ensures n <= |s|
    ensures '/' !in s[..n]
    ensures n < |s| ==> s[n] == '/'
  {
    if s == "" || s[0] == '/' then 0
    else
      var n := FirstSlash(s[1..]);
      assert s[..n + 1] == [s[0]] + s[1..][..n];
      n + 1
  }

  function Total(assets: seq<Asset>): int {
    if assets == [] then 0 else Total(assets[..|assets| - 1]) + assets[|assets| - 1].size
  }

  predicate AssetAccepted(asset: Asset) {
    var slash := FirstSlash(asset.name);
    && slash < |asset.name|
    && var name := asset.name[slash + 1..];
    && ValidAssetName(asset.name[..slash], name)
    && ValidDigest(asset.digest)
    && |Extension(name)| <= |name| && name[..|name| - |Extension(name)|] == asset.digest
    && 0 <= asset.size <= MAX_IMAGE
  }

  ghost predicate Listed(path: string, assets: seq<Asset>) {
    exists i :: 0 <= i < |assets| && path == "/broadcast/" + assets[i].name
  }

  predicate NeedsAsset(item: Item) {
    item.kind == "image" && item.content != ""
  }

  ghost predicate PageAccepted(page: Page, assets: seq<Asset>) {
    && ValidMode(page.mode)
    && forall i :: 0 <= i < |page.items| && NeedsAsset(page.items[i]) ==> Listed(page.items[i].content, assets)
  }

  ghost predicate ActiveFontAccepted(pub: Publication) {
    var active := Get(pub.snapshot.config, "active_font", "");
    active == "" || Listed("/broadcast/fonts/" + active, pub.assets)
  }

  ghost predicate AcceptedApartFromActiveFont(pub: Publication) {
    && (forall i :: 0 <= i < |pub.assets| ==> AssetAccepted(pub.assets[i]))
    && Total(pub.assets) <= MAX_TOTAL
    && (forall i :: 0 <= i < |pub.snapshot.pages| ==> PageAccepted(pub.snapshot.pages[i], pub.assets))
    && (forall i :: 0 <= i < |pub.snapshot.fonts| ==>
        Listed("/broadcast/fonts/" + pub.snapshot.fonts[i].filename, pub.assets))
  }

  /** Everything a room verifies about a publication's manifest. */
  ghost predicate Accepted(pub: Publication) {
    AcceptedApartFromActiveFont(pub) && ActiveFontAccepted(pub)
  }

  lemma {:induction false} TotalGrows(assets: seq<Asset>, n: nat)
    requires n <= |assets|
    requires forall i :: 0 <= i < |assets| ==> AssetAccepted(assets[i])
    ensures Total(assets[..n]) <= Total(assets)
  {
    if n == |assets| {
      assert assets[..n] == assets;
    } else {
      var shorter := assets[..|assets| - 1];
      assert assets[..n] == shorter[..n];
      TotalGrows(shorter, n);
    }
  }

  lemma ListedSnoc(assets: seq<Asset>, asset: Asset, path: string)
    ensures Listed(path, assets + [asset]) <==> Listed(path, assets) || path == "/broadcast/" + asset.name
  {
    if Listed(path, assets) {
      var i :| 0 <= i < |assets| && path == "/broadcast/" + assets[i].name;
      assert (assets + [asset])[i] == assets[i];
    }
    if path == "/broadcast/" + asset.name {
      assert (assets + [asset])[|assets|] == asset;
    }
  }

  /** The first loop of the room's checks: the manifest itself, collecting the paths it covers. */
  method CheckAssets(assets: seq<Asset>) returns (ok: bool, listed: set<string>)
    ensures ok <==> (forall i :: 0 <= i < |assets| ==> AssetAccepted(assets[i])) && Total(assets) <= MAX_TOTAL
    ensures ok ==> forall path :: path in listed <==> Listed(path, assets)
  {
    hide AssetAccepted;
    var total := 0;
    listed := {};
    for n := 0 to |assets|
      invariant total == Total(assets[..n]) <= MAX_TOTAL
      invariant forall i :: 0 <= i < n ==> AssetAccepted(assets[i])
      invariant forall path :: path in listed <==> Listed(path, assets[..n])
    {
      var asset := assets[n];
      assert assets[..n + 1] == assets[..n] + [asset];
      total := total + asset.size;
      if !AssetAccepted(asset) {
        return false, {};
      }
      if total > MAX_TOTAL {
        if forall i :: 0 <= i < |assets| ==> AssetAccepted(assets[i]) {
          TotalGrows(assets, n + 1);
        }
        return false, {};
      }
      forall path {
        ListedSnoc(assets[..n], asset, path);
      }
      listed := listed + {"/broadcast/" + asset.name};
    }
    assert assets[..|assets|] == assets;
    ok := true;
  }

  /** The second loop: every page has a known mode and every image it shows is covered. */
  method CheckPages(pages: seq<Page>, assets: seq<Asset>, listed: set<string>) returns (ok: bool)
    requires forall path :: path in listed <==> Listed(path, assets)
    ensures ok <==> forall i :: 0 <= i < |pages| ==> PageAccepted(pages[i], assets)
  {
    for p := 0 to |pages|
      invariant forall i :: 0 <= i < p ==> PageAccepted(pages[i], assets)
    {
      var page := pages[p];
      if !ValidMode(page.mode) {
        assert !PageAccepted(page, assets);
        return false;
      }
      for i := 0 to |page.items|
        invariant forall k :: 0 <= k < i && NeedsAsset(page.items[k]) ==> Listed(page.items[k].content, assets)
      {
        if NeedsAsset(page.items[i]) && page.items[i].content !in listed {
          assert !PageAccepted(page, assets);
          return false;
        }
      }
    }
    ok := true;
  }

  /** The room's manifest checks, in the order it makes them. */
  method CheckManifest(pub: Publication) returns (ok: bool)
    ensures ok <==> Accepted(pub)
  {
    hide AssetAccepted, PageAccepted;
    var listed: set<string>;
    ok, listed := CheckAssets(pub.assets);
    if !ok {
      return;
    }
    ok := CheckPages(pub.snapshot.pages, pub.assets, listed);
    if !ok {
      return;
    }
    var fonts := pub.snapshot.fonts;
    for f := 0 to |fonts|
      invariant forall i :: 0 <= i < f ==> Listed("/broadcast/fonts/" + fonts[i].filename, pub.assets)
    {
      if "/broadcast/fonts/" + fonts[f].filename !in listed {
        return false;
      }
    }
    var active := Get(pub.snapshot.config, "active_font", "");
    ok := active == "" || "/broadcast/fonts/" + active in listed;
  }
}

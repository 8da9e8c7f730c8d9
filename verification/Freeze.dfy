/** Freezing a draft broadcast: every file it shows is copied under its digest, and names in the draft are replaced. */
module Freeze {
  import opened Common
  import opened Assets
  import Store = BroadcastStore

  type Bytes = seq<bv8>

  /** A file of the draft, by kind ("fonts" or "images") and name. */
  datatype Ref = Ref(kind: string, name: string)

  const IMAGES: string := "/broadcast/images/"

  /** What freezing reads: the regular files, the digest function, and which copies succeed. */
  datatype Disk = Disk(files: map<Ref, Bytes>, sha: Bytes -> string, copies: Ref -> bool)

  ghost predicate GoodDigests(sha: Bytes -> string) {
    forall b :: ValidDigest(sha(b))
  }

  predicate Freezable(disk: Disk, ref: Ref) {
    ValidAssetName(ref.kind, ref.name) && ref in disk.files && |disk.files[ref]| <= MAX_IMAGE && disk.copies(ref)
  }

  function FrozenName(disk: Disk, ref: Ref): string {
    (if ref in disk.files then disk.sha(disk.files[ref]) else "") + Lower(Extension(ref.name))
  }

  function FrozenAsset(disk: Disk, ref: Ref): Asset {
    if ref in disk.files then
      Asset(ref.kind + "/" + FrozenName(disk, ref), disk.sha(disk.files[ref]), |disk.files[ref]|)
    else Asset("", "", 0)
  }

  /** The references in the order of their first occurrence. */
  function Firsts(refs: seq<Ref>): seq<Ref> {
    if refs == [] then []
    else
      var before, last := refs[..|refs| - 1], refs[|refs| - 1];
      if last in before then Firsts(before) else Firsts(before) + [last]
  }

  function FrozenAssets(disk: Disk, refs: seq<Ref>): seq<Asset> {
    seq(|refs|, i requires 0 <= i < |refs| => FrozenAsset(disk, refs[i]))
  }

  function FontRef(font: Font): Ref {
    Ref("fonts", font.filename)
  }

  function FontRefs(fonts: seq<Font>): seq<Ref> {
    seq(|fonts|, i requires 0 <= i < |fonts| => FontRef(fonts[i]))
  }

  predicate Uploaded(item: Item) {
    IMAGES <= item.content
  }

  function ImageRef(item: Item): Ref {
    Ref("images", if Uploaded(item) then item.content[|IMAGES|..] else item.content)
  }

  function ItemRefs(items: seq<Item>): seq<Ref> {
    if items == [] then []
    else ItemRefs(items[..|items| - 1]) + if NeedsAsset(items[|items| - 1]) then [ImageRef(items[|items| - 1])] else []
  }

  function PageRefs(pages: seq<Page>): seq<Ref> {
    if pages == [] then [] else PageRefs(pages[..|pages| - 1]) + ItemRefs(pages[|pages| - 1].items)
  }

  function FrozenItem(disk: Disk, item: Item): Item {
    if NeedsAsset(item) then item.(content := IMAGES + FrozenName(disk, ImageRef(item))) else item
  }

  function FrozenItems(disk: Disk, items: seq<Item>): seq<Item> {
    seq(|items|, i requires 0 <= i < |items| => FrozenItem(disk, items[i]))
  }

  function FrozenPage(disk: Disk, page: Page): Page {
    page.(items := FrozenItems(disk, page.items))
  }

  function FrozenPages(disk: Disk, pages: seq<Page>): seq<Page> {
    seq(|pages|, i requires 0 <= i < |pages| => FrozenPage(disk, pages[i]))
  }

  function FrozenFont(disk: Disk, font: Font): Font {
    font.(filename := FrozenName(disk, FontRef(font)))
  }

  function FrozenFonts(disk: Disk, fonts: seq<Font>): seq<Font> {
    seq(|fonts|, i requires 0 <= i < |fonts| => FrozenFont(disk, fonts[i]))
  }

  /** One font per file name: the first of those that froze to the same name. */
  function OnePerName(fonts: seq<Font>): seq<Font> {
    if fonts == [] then []
    else
      var before, last := OnePerName(fonts[..|fonts| - 1]), fonts[|fonts| - 1];
      if last.filename in Store.FontNames(before) then before else before + [last]
  }

  /** The active font follows its file through the renaming, font by font. */
  function ActiveAfter(disk: Disk, fonts: seq<Font>, active: string): string {
    if fonts == [] then active
    else
      var last := fonts[|fonts| - 1];
      var before := ActiveAfter(disk, fonts[..|fonts| - 1], active);
      if before == last.filename then FrozenName(disk, FontRef(last)) else before
  }

  function WithActive(config: map<string, string>, active: string): map<string, string> {
    if active == Get(config, "active_font", "") then config else config["active_font" := active]
  }

  function Refs(draft: Snapshot): seq<Ref> {
    FontRefs(draft.fonts) + PageRefs(draft.pages)
  }

  /** The frozen draft. */
  function Frozen(disk: Disk, draft: Snapshot): Snapshot {
    draft.(fonts := OnePerName(FrozenFonts(disk, draft.fonts)), pages := FrozenPages(disk, draft.pages),
           config := WithActive(draft.config, ActiveAfter(disk, draft.fonts, Get(draft.config, "active_font", ""))))
  }

  function Manifest(disk: Disk, draft: Snapshot): seq<Asset> {
    FrozenAssets(disk, Firsts(Refs(draft)))
  }

  ghost predicate AllUploaded(pages: seq<Page>) {
    forall p, i :: 0 <= p < |pages| && 0 <= i < |pages[p].items| && NeedsAsset(pages[p].items[i]) ==>
        Uploaded(pages[p].items[i])
  }

  ghost predicate CanFreeze(disk: Disk, draft: Snapshot) {
    && AllUploaded(draft.pages)
    && (forall ref :: ref in Refs(draft) ==> Freezable(disk, ref))
    && Total(Manifest(disk, draft)) <= MAX_TOTAL
  }

  // ----- What the frozen names look like -----

  lemma {:induction false} ExtensionShape(path: string, n: nat)
    requires n <= |path|
    ensures var e := ExtensionBefore(path, n); e == "" || (e[0] == '.' && |e| <= |path|)
    ensures (forall i :: n <= i < |path| ==> path[i] != '.' && path[i] != '/') ==>
              forall i :: 1 <= i < |ExtensionBefore(path, n)| ==>
                  ExtensionBefore(path, n)[i] != '.' && ExtensionBefore(path, n)[i] != '/'
  {
    if n > 0 && path[n - 1] != '/' && path[n - 1] != '.' {
      ExtensionShape(path, n - 1);
    }
  }

  /** A name without dot or slash before it keeps an extension that starts with its only dot. */
  lemma {:induction false} ExtensionOfSuffixed(stem: string, ext: string, n: nat)
    requires ext != "" && ext[0] == '.' && |stem| < n <= |stem| + |ext|
    requires forall i :: 1 <= i < |ext| ==> ext[i] != '.' && ext[i] != '/'
    ensures ExtensionBefore(stem + ext, n) == ext
  {
    var path := stem + ext;
    if n == |stem| + 1 {
      assert path[n - 1] == '.' && path[n - 1..] == ext;
    } else {
      assert path[n - 1] == ext[n - 1 - |stem|];
      ExtensionOfSuffixed(stem, ext, n - 1);
    }
  }

  lemma LowerTwice(s: string)
    ensures Lower(Lower(s)) == Lower(s)
  {
  }

  lemma DigestWithExtension(digest: string, ext: string)
    requires ValidDigest(digest) && ext != "" && ext[0] == '.' && forall i :: 1 <= i < |ext| ==>
               ext[i] != '.' && ext[i] != '/'
    requires forall i :: 0 <= i < |ext| ==> ext[i] != '\\' && ext[i] != '\0'
    ensures Extension(digest + ext) == ext
    ensures IsBaseName(digest + ext) && (digest + ext)[0] != '.' && '\\' !in digest + ext && '\0' !in digest + ext
  {
    ExtensionOfSuffixed(digest, ext, |digest| + |ext|);
    forall i | 0 <= i < |digest + ext|
      ensures (digest + ext)[i] != '/' && (digest + ext)[i] != '\\' && (digest + ext)[i] != '\0'
    {
      assert (digest + ext)[i] == if i < |digest| then digest[i] else ext[i - |digest|];
    }
  }

  lemma LowerKeepsShape(ext: string)
    ensures forall i :: 0 <= i < |ext| ==>
              (Lower(ext)[i] == '.' <==> ext[i] == '.') && (Lower(ext)[i] == '/' <==> ext[i] == '/')
  {
  }

  lemma FrozenNameIsValid(disk: Disk, ref: Ref)
    requires GoodDigests(disk.sha) && Freezable(disk, ref)
    ensures ValidAssetName(ref.kind, FrozenName(disk, ref))
    ensures Extension(FrozenName(disk, ref)) == Lower(Extension(ref.name))
  {
    var digest, ext := disk.sha(disk.files[ref]), Lower(Extension(ref.name));
    assert ValidDigest(digest);
    ExtensionShape(ref.name, |ref.name|);
    LowerKeepsShape(Extension(ref.name));
    AllowedExtensionsArePlain(ext);
    assert ext != "";
    LowerTwice(Extension(ref.name));
    hide ExtensionBefore, ValidDigest, Lower;
    DigestWithExtension(digest, ext);
  }

  lemma AllowedExtensionsArePlain(ext: string)
    requires ext in FONT_EXTENSIONS || ext in IMAGE_EXTENSIONS
    ensures forall i :: 0 <= i < |ext| ==> ext[i] != '\\' && ext[i] != '\0'
  {
  }

  lemma CutAtSlash(kind: string, name: string)
    requires '/' !in kind
    ensures FirstSlash(kind + "/" + name) == |kind|
    ensures (kind + "/" + name)[|kind| + 1..] == name && (kind + "/" + name)[..|kind|] == kind
  {
    var path := kind + "/" + name;
    var n := FirstSlash(path);
    assert path[|kind|] == '/';
    forall k | 0 <= k < |kind| ensures path[k] != '/' {
      assert path[k] == kind[k];
    }
    forall k | 0 <= k < n ensures path[k] != '/' {
      assert path[..n][k] == path[k];
    }
    hide FirstSlash;
  }

  lemma FrozenAssetIsAccepted(disk: Disk, ref: Ref)
    requires GoodDigests(disk.sha) && Freezable(disk, ref)
    ensures AssetAccepted(FrozenAsset(disk, ref))
  {
    var name, digest := FrozenName(disk, ref), disk.sha(disk.files[ref]);
    assert '/' !in ref.kind;
    CutAtSlash(ref.kind, name);
    FrozenNameIsValid(disk, ref);
    assert name == digest + Lower(Extension(ref.name));
    assert name[..|name| - |Extension(name)|] == digest;
    hide ValidAssetName;
  }

  // ----- What a manifest entry looks like -----

  /** A manifest entry in full: kind, digest and extension make up its name. */
  predicate Shaped(asset: Asset, kind: string, extension: string) {
    && asset.name == kind + "/" + (asset.digest + extension)
    && |asset.digest| == 64 && (forall i :: 0 <= i < 64 ==>
        '0' <= asset.digest[i] <= '9' || 'a' <= asset.digest[i] <= 'f')
    && 0 <= asset.size <= 20971520
    && ((kind == "fonts" && Lower(extension) in {".ttf", ".woff", ".woff2"})
        || (kind == "images" && Lower(extension) in {".png", ".jpg", ".jpeg", ".gif", ".svg", ".webp"}))
  }

  lemma {:induction false} ExtensionIsSuffix(path: string, n: nat)
    requires n <= |path|
    ensures |ExtensionBefore(path, n)| <= |path|
            && ExtensionBefore(path, n) == path[|path| - |ExtensionBefore(path, n)|..]
  {
    if n > 0 && path[n - 1] != '/' && path[n - 1] != '.' {
      ExtensionIsSuffix(path, n - 1);
    }
  }

  lemma Rejoined(path: string, n: nat, m: nat)
    requires n < |path| && path[n] == '/' && n + 1 + m <= |path|
    ensures path == path[..n] + "/" + (path[n + 1..][..m] + path[n + 1..][m..])
  {
    assert path[n + 1..][..m] + path[n + 1..][m..] == path[n + 1..];
  }

  lemma AcceptedKind(kind: string, name: string)
    requires ValidAssetName(kind, name)
    ensures (kind == "fonts" && Lower(Extension(name)) in {".ttf", ".woff", ".woff2"})
            || (kind == "images"
                && Lower(Extension(name)) in {".png", ".jpg", ".jpeg", ".gif", ".svg", ".webp"})
  {
    hide Extension, Lower, IsBaseName;
  }

  lemma AcceptedDigest(digest: string)
    requires ValidDigest(digest)
    ensures |digest| == 64 && (forall i :: 0 <= i < 64 ==> '0' <= digest[i] <= '9' || 'a' <= digest[i] <= 'f')
  {
  }

  lemma AcceptedHasShape(asset: Asset)
    requires AssetAccepted(asset)
    ensures exists kind, extension :: Shaped(asset, kind, extension)
  {
    var slash := FirstSlash(asset.name);
    var kind, name := asset.name[..slash], asset.name[slash + 1..];
    var extension := Extension(name);
    assert Shaped(asset, kind, extension) by {
      hide FirstSlash, Extension, Lower, ValidAssetName, ValidDigest;
      ExtensionIsSuffix(name, |name|);
      assert extension == name[|name| - |extension|..] by { hide *; }
      hide Extension;
      Rejoined(asset.name, slash, |name| - |extension|);
      AcceptedKind(kind, name);
      AcceptedDigest(asset.digest);
    }
    hide *;
  }

  /** A room accepts an entry exactly if it is of that shape. */
  lemma AcceptedIsShaped(asset: Asset)
    ensures AssetAccepted(asset) <==> exists kind, extension :: Shaped(asset, kind, extension)
  {
    hide *;
    if AssetAccepted(asset) {
      AcceptedHasShape(asset);
    }
    if kind, extension :| Shaped(asset, kind, extension) {
      ShapedIsAccepted(asset, kind, extension);
    }
  }

  lemma ShapedIsAccepted(asset: Asset, kind: string, extension: string)
    requires Shaped(asset, kind, extension)
    ensures AssetAccepted(asset)
  {
    var name := asset.digest + extension;
    assert '/' !in kind;
    CutAtSlash(kind, name);
    PlainExtension(extension);
    hide Lower;
    DigestWithExtension(asset.digest, extension);
    assert name[..|name| - |extension|] == asset.digest;
    hide ExtensionBefore, FirstSlash, IsBaseName;
  }

  lemma PlainExtension(extension: string)
    requires Lower(extension) in FONT_EXTENSIONS || Lower(extension) in IMAGE_EXTENSIONS
    ensures extension != "" && extension[0] == '.'
    ensures forall i :: 1 <= i < |extension| ==> extension[i] != '.' && extension[i] != '/'
    ensures forall i :: 0 <= i < |extension| ==> extension[i] != '\\' && extension[i] != '\0'
  {
    var lower := Lower(extension);
    AllowedExtensionsArePlain(lower);
    LowerKeepsShape(extension);
    assert lower[0] == '.' && forall i :: 1 <= i < |lower| ==> lower[i] != '.' && lower[i] != '/';
    assert forall i :: 0 <= i < |extension| ==> lower[i] == LowerChar(extension[i]);
  }

  // ----- The manifest covers everything -----

  lemma {:induction false} FirstsAre(refs: seq<Ref>)
    ensures Distinct(Firsts(refs)) && forall ref :: ref in Firsts(refs) <==> ref in refs
  {
    if refs != [] {
      FirstsAre(refs[..|refs| - 1]);
      assert refs == refs[..|refs| - 1] + [refs[|refs| - 1]];
    }
  }

  lemma {:induction false} ItemRefsAre(items: seq<Item>)
    ensures forall ref :: ref in ItemRefs(items) <==>
              exists i :: 0 <= i < |items| && NeedsAsset(items[i]) && ref == ImageRef(items[i])
  {
    if items != [] {
      ItemRefsAre(items[..|items| - 1]);
    }
  }

  lemma {:induction false} PageRefsAre(pages: seq<Page>)
    ensures forall ref :: ref in PageRefs(pages) <==> exists p :: 0 <= p < |pages| && ref in ItemRefs(pages[p].items)
  {
    if pages != [] {
      var front, last := pages[..|pages| - 1], pages[|pages| - 1];
      PageRefsAre(front);
      hide ItemRefs;
      assert PageRefs(pages) == PageRefs(front) + ItemRefs(last.items);
      hide PageRefs;
      forall ref ensures (exists p :: 0 <= p < |pages| && ref in ItemRefs(pages[p].items)) <==>
                           ref in ItemRefs(last.items) || exists p ::
                               0 <= p < |front| && ref in ItemRefs(front[p].items)
      {
        assert forall p :: 0 <= p < |front| ==> front[p] == pages[p];
      }
    }
  }

  lemma ListedInManifest(disk: Disk, draft: Snapshot, ref: Ref)
    requires ref in Refs(draft) && ref in disk.files
    ensures Listed("/broadcast/" + ref.kind + "/" + FrozenName(disk, ref), Manifest(disk, draft))
  {
    FirstsAre(Refs(draft));
    var i :| 0 <= i < |Firsts(Refs(draft))| && Firsts(Refs(draft))[i] == ref;
    assert Manifest(disk, draft)[i] == FrozenAsset(disk, ref);
    assert "/broadcast/" + ref.kind + "/" + FrozenName(disk, ref) == "/broadcast/" + Manifest(disk, draft)[i].name;
  }

  lemma SamePathSameAsset(name: string, kind: string, other: string)
    requires '/' !in kind && "/broadcast/fonts/" + name == "/broadcast/" + (kind + "/" + other)
    ensures kind == "fonts" && name == other
  {
    var left, right := "fonts" + "/" + name, kind + "/" + other;
    assert "/broadcast/fonts/" + name == "/broadcast/" + left;
    assert left == ("/broadcast/" + left)[11..] && right == ("/broadcast/" + right)[11..];
    CutAtSlash("fonts", name);
    CutAtSlash(kind, other);
  }

  lemma KindIsPlain(disk: Disk, ref: Ref)
    requires Freezable(disk, ref)
    ensures '/' !in ref.kind && FrozenAsset(disk, ref).name == ref.kind + "/" + FrozenName(disk, ref)
  {
    assert ref.kind == "fonts" || ref.kind == "images";
  }

  /** Conversely, a font path is only listed for a font of the draft: images live elsewhere. */
  lemma ListedFontIsFrozen(disk: Disk, draft: Snapshot, name: string)
    requires CanFreeze(disk, draft) && Listed("/broadcast/fonts/" + name, Manifest(disk, draft))
    ensures exists i :: 0 <= i < |draft.fonts| && name == FrozenName(disk, FontRef(draft.fonts[i]))
  {
    var refs := Firsts(Refs(draft));
    var n :| 0 <= n < |refs| && "/broadcast/fonts/" + name == "/broadcast/" + Manifest(disk, draft)[n].name;
    FirstsAre(Refs(draft));
    var ref := refs[n];
    assert ref in Refs(draft) && Freezable(disk, ref) && Manifest(disk, draft)[n] == FrozenAsset(disk, ref);
    hide Freezable, FrozenName, FrozenAsset, Manifest, Refs, Firsts;
    KindIsPlain(disk, ref);
    SamePathSameAsset(name, ref.kind, FrozenName(disk, ref));
    FontRefsOnly(draft, ref);
  }

  lemma FontRefsOnly(draft: Snapshot, ref: Ref)
    requires ref in Refs(draft) && ref.kind == "fonts"
    ensures exists i :: 0 <= i < |draft.fonts| && ref == FontRef(draft.fonts[i])
  {
    PageRefsAre(draft.pages);
    forall p | 0 <= p < |draft.pages| {
      ItemRefsAre(draft.pages[p].items);
    }
    assert ref !in PageRefs(draft.pages);
    var i :| 0 <= i < |FontRefs(draft.fonts)| && FontRefs(draft.fonts)[i] == ref;
    assert ref == FontRef(draft.fonts[i]);
  }

  /** The names a font may carry after freezing. */
  ghost predicate IsFrozenFontName(disk: Disk, fonts: seq<Font>, name: string) {
    exists i :: 0 <= i < |fonts| && name == FrozenName(disk, FontRef(fonts[i]))
  }

  ghost predicate IsFont(fonts: seq<Font>, name: string) {
    exists i :: 0 <= i < |fonts| && name == fonts[i].filename
  }

  lemma FontsSnoc(disk: Disk, before: seq<Font>, last: Font, name: string)
    ensures IsFont(before + [last], name) <==> IsFont(before, name) || name == last.filename
    ensures IsFrozenFontName(disk, before + [last], name) <==>
              IsFrozenFontName(disk, before, name) || name == FrozenName(disk, FontRef(last))
  {
    var fonts := before + [last];
    hide FrozenName, FontRef;
    assert fonts[|before|] == last && forall i :: 0 <= i < |before| ==> fonts[i] == before[i];
    if IsFont(before, name) {
      var i :| 0 <= i < |before| && name == before[i].filename;
      assert name == fonts[i].filename;
    }
    if IsFrozenFontName(disk, before, name) {
      var i :| 0 <= i < |before| && name == FrozenName(disk, FontRef(before[i]));
      assert name == FrozenName(disk, FontRef(fonts[i]));
    }
    if name == FrozenName(disk, FontRef(last)) {
      assert name == FrozenName(disk, FontRef(fonts[|before|]));
    }
    if name == last.filename {
      assert name == fonts[|before|].filename;
    }
  }

  lemma FontNamesAreNotEmpty(disk: Disk, font: Font)
    requires GoodDigests(disk.sha) && Freezable(disk, FontRef(font))
    ensures font.filename != "" && FrozenName(disk, FontRef(font)) != ""
  {
    assert ValidDigest(disk.sha(disk.files[FontRef(font)]));
  }

  lemma {:induction false} ActiveAfterIs(disk: Disk, fonts: seq<Font>, active: string)
    requires GoodDigests(disk.sha) && forall i :: 0 <= i < |fonts| ==> Freezable(disk, FontRef(fonts[i]))
    ensures var after := ActiveAfter(disk, fonts, active);
            && (after == "" <==> active == "")
            && (IsFont(fonts, active) ==> IsFrozenFontName(disk, fonts, after))
            && (!IsFont(fonts, active) ==> after == active)
  {
    hide Freezable, FrozenName, FontRef, GoodDigests;
    if fonts == [] {
      assert !IsFont(fonts, active);
    } else {
      hide IsFont, IsFrozenFontName;
      var before, last := fonts[..|fonts| - 1], fonts[|fonts| - 1];
      assert fonts == before + [last] && Freezable(disk, FontRef(last));
      assert forall i :: 0 <= i < |before| ==> before[i] == fonts[i];
      ActiveAfterIs(disk, before, active);
      ActiveAfterOneMore(disk, before, last, active);
      FontNamesAreNotEmpty(disk, last);
      hide ActiveAfter;
      FontsSnoc(disk, before, last, active);
      FontsSnoc(disk, before, last, ActiveAfter(disk, fonts, active));
    }
  }

  lemma ActiveAfterOneMore(disk: Disk, before: seq<Font>, last: Font, active: string)
    ensures var was := ActiveAfter(disk, before, active);
            ActiveAfter(disk, before + [last], active) == if was == last.filename then FrozenName(disk, FontRef(last))
                else was
  {
    assert (before + [last])[..|before|] == before;
  }

  lemma {:induction false} OnePerNameAre(fonts: seq<Font>)
    ensures Distinct(Store.FontNames(OnePerName(fonts)))
    ensures forall name :: name in Store.FontNames(OnePerName(fonts)) <==> IsFont(fonts, name)
  {
    if fonts != [] {
      var before, last := fonts[..|fonts| - 1], fonts[|fonts| - 1];
      OnePerNameAre(before);
      assert Store.FontNames(OnePerName(before) + [last]) == Store.FontNames(OnePerName(before)) + [last.filename];
      forall name ensures IsFont(fonts, name) <==> IsFont(before, name) || name == last.filename {
        if IsFont(before, name) {
          var i :| 0 <= i < |before| && name == before[i].filename;
          assert name == fonts[i].filename;
        }
        assert fonts[|fonts| - 1] == last;
      }
    }
  }

  lemma FrozenPagesAreAccepted(disk: Disk, draft: Snapshot, p: nat)
    requires CanFreeze(disk, draft) && p < |draft.pages|
    ensures PageAccepted(FrozenPages(disk, draft.pages)[p], Manifest(disk, draft)) <==> ValidMode(draft.pages[p].mode)
  {
    var items := draft.pages[p].items;
    hide Freezable, FrozenName, Manifest;
    forall i | 0 <= i < |items| && NeedsAsset(items[i])
      ensures Listed(FrozenItems(disk, items)[i].content, Manifest(disk, draft))
    {
      var ref := ImageRef(items[i]);
      ItemRefsAre(items);
      PageRefsAre(draft.pages);
      assert ref in PageRefs(draft.pages) && ref in Refs(draft);
      ImageIsListed(disk, draft, ref);
    }
    forall i | 0 <= i < |items| ensures NeedsAsset(FrozenItems(disk, items)[i]) <==> NeedsAsset(items[i]) {
    }
  }

  lemma ImageIsListed(disk: Disk, draft: Snapshot, ref: Ref)
    requires CanFreeze(disk, draft) && ref in Refs(draft) && ref.kind == "images"
    ensures Listed(IMAGES + FrozenName(disk, ref), Manifest(disk, draft))
  {
    assert Freezable(disk, ref);
    hide FrozenName, Manifest;
    ListedInManifest(disk, draft, ref);
    assert IMAGES + FrozenName(disk, ref) == "/broadcast/" + ref.kind + "/" + FrozenName(disk, ref);
  }

  lemma FontIsListed(disk: Disk, draft: Snapshot, i: nat)
    requires CanFreeze(disk, draft) && i < |draft.fonts|
    ensures Freezable(disk, FontRef(draft.fonts[i]))
    ensures Listed("/broadcast/fonts/" + FrozenName(disk, FontRef(draft.fonts[i])), Manifest(disk, draft))
  {
    var ref := FontRef(draft.fonts[i]);
    assert FontRefs(draft.fonts)[i] == ref && ref in FontRefs(draft.fonts) && ref in Refs(draft);
    assert Freezable(disk, ref);
    hide FrozenName, Manifest;
    ListedInManifest(disk, draft, ref);
    assert "/broadcast/fonts/" + FrozenName(disk, ref) == "/broadcast/" + ref.kind + "/" + FrozenName(disk, ref);
  }

  /** Freeze and apply agree: a frozen publication passes all of the room's manifest checks exactly if its page modes
      are known and its active font is empty, one of the draft's fonts, or already a frozen font name. */
  lemma FrozenIsAccepted(disk: Disk, draft: Snapshot, action: Action, mode: string)
    requires GoodDigests(disk.sha) && CanFreeze(disk, draft)
    ensures var active := Get(draft.config, "active_font", "");
            Accepted(Publication(Frozen(disk, draft), Manifest(disk, draft), action, mode))
            <==> (forall p :: 0 <= p < |draft.pages| ==> ValidMode(draft.pages[p].mode))
                 && (active == "" || IsFont(draft.fonts, active) || IsFrozenFontName(disk, draft.fonts, active))
  {
    var frozen, manifest := Frozen(disk, draft), Manifest(disk, draft);
    var pub := Publication(frozen, manifest, action, mode);
    var active := Get(draft.config, "active_font", "");
    ManifestIsAccepted(disk, draft);
    FrozenFontsAreListed(disk, draft);
    ActiveFontAgrees(disk, draft, action, mode);
    forall p | 0 <= p < |draft.pages|
      ensures PageAccepted(frozen.pages[p], manifest) <==> ValidMode(draft.pages[p].mode)
    {
      FrozenPagesAreAccepted(disk, draft, p);
    }
    hide PageAccepted, AssetAccepted, ActiveFontAccepted, Listed, CanFreeze, Manifest, OnePerName, ActiveAfter, IsFont,
    IsFrozenFontName, Total;
    assert (forall p :: 0 <= p < |frozen.pages| ==> PageAccepted(frozen.pages[p], manifest)) <==>
             forall p :: 0 <= p < |draft.pages| ==> ValidMode(draft.pages[p].mode);
  }

  lemma ManifestIsAccepted(disk: Disk, draft: Snapshot)
    requires GoodDigests(disk.sha) && CanFreeze(disk, draft)
    ensures forall n :: 0 <= n < |Manifest(disk, draft)| ==> AssetAccepted(Manifest(disk, draft)[n])
  {
    var refs := Firsts(Refs(draft));
    FirstsAre(Refs(draft));
    forall n | 0 <= n < |refs| ensures AssetAccepted(Manifest(disk, draft)[n]) {
      assert refs[n] in Refs(draft);
      FrozenAssetIsAccepted(disk, refs[n]);
    }
  }

  lemma FrozenFontsAreListed(disk: Disk, draft: Snapshot)
    requires CanFreeze(disk, draft)
    ensures var fonts := Frozen(disk, draft).fonts;
            && Distinct(Store.FontNames(fonts))
            && forall i :: 0 <= i < |fonts| ==> Listed("/broadcast/fonts/" + fonts[i].filename, Manifest(disk, draft))
  {
    var all, fonts := FrozenFonts(disk, draft.fonts), Frozen(disk, draft).fonts;
    OnePerNameAre(all);
    hide Manifest, Listed;
    forall i | 0 <= i < |fonts| ensures Listed("/broadcast/fonts/" + fonts[i].filename, Manifest(disk, draft)) {
      assert Store.FontNames(fonts)[i] == fonts[i].filename;
      assert fonts[i].filename in Store.FontNames(fonts) && IsFont(all, fonts[i].filename);
      var k :| 0 <= k < |all| && fonts[i].filename == all[k].filename;
      FontIsListed(disk, draft, k);
    }
  }

  lemma ActiveFontAgrees(disk: Disk, draft: Snapshot, action: Action, mode: string)
    requires GoodDigests(disk.sha) && CanFreeze(disk, draft)
    ensures var active := Get(draft.config, "active_font", "");
            ActiveFontAccepted(Publication(Frozen(disk, draft), Manifest(disk, draft), action, mode))
            <==> active == "" || IsFont(draft.fonts, active) || IsFrozenFontName(disk, draft.fonts, active)
  {
    var active := Get(draft.config, "active_font", "");
    var after := ActiveAfter(disk, draft.fonts, active);
    forall i | 0 <= i < |draft.fonts|
      ensures Freezable(disk, FontRef(draft.fonts[i]))
              && Listed("/broadcast/fonts/" + FrozenName(disk, FontRef(draft.fonts[i])), Manifest(disk, draft))
    {
      FontIsListed(disk, draft, i);
    }
    ActiveAfterIs(disk, draft.fonts, active);
    if Listed("/broadcast/fonts/" + after, Manifest(disk, draft)) {
      ListedFontIsFrozen(disk, draft, after);
    }
    hide Freezable, FrozenName, Manifest, Listed, CanFreeze, ActiveAfter;
    assert Get(Frozen(disk, draft).config, "active_font", "") == after;
  }

  lemma ImageIsFrozen(disk: Disk, draft: Snapshot, p: nat, i: nat) returns (n: nat, ref: Ref)
    requires CanFreeze(disk, draft) && p < |draft.pages| && i < |draft.pages[p].items|
             && NeedsAsset(draft.pages[p].items[i])
    ensures ref == ImageRef(draft.pages[p].items[i]) && Freezable(disk, ref) && Uploaded(draft.pages[p].items[i])
    ensures n < |Manifest(disk, draft)| && Manifest(disk, draft)[n] == FrozenAsset(disk, ref)
  {
    ref := ImageRef(draft.pages[p].items[i]);
    ItemRefsAre(draft.pages[p].items);
    PageRefsAre(draft.pages);
    hide ItemRefs, PageRefs, Freezable;
    assert ref in PageRefs(draft.pages) && ref in Refs(draft);
    FirstsAre(Refs(draft));
    n :| 0 <= n < |Firsts(Refs(draft))| && Firsts(Refs(draft))[n] == ref;
  }

  /** A frozen image names a manifest entry with the digest of the very file the draft showed. */
  ghost predicate ShowsSameFile(disk: Disk, manifest: seq<Asset>, item: Item, frozen: Item) {
    exists n, file | 0 <= n < |manifest| && file in disk.files ::
      item.content == IMAGES + file.name && file.kind == "images"
      && frozen.content == "/broadcast/" + manifest[n].name && manifest[n].digest == disk.sha(disk.files[file])
  }

  lemma FrozenAssetShows(disk: Disk, manifest: seq<Asset>, n: nat, item: Item)
    requires n < |manifest| && manifest[n] == FrozenAsset(disk, ImageRef(item)) && Uploaded(item)
             && ImageRef(item) in disk.files && NeedsAsset(item)
    ensures ShowsSameFile(disk, manifest, item, FrozenItem(disk, item))
  {
    var ref := ImageRef(item);
    assert FrozenItem(disk, item).content == "/broadcast/" + manifest[n].name;
    assert item.content == IMAGES + ref.name;
  }

  /** Freezing keeps the meaning of a page: same items, other contents untouched, and each image still shows its
      file. */
  lemma FrozenImageShowsTheSameFile(disk: Disk, draft: Snapshot, p: nat, i: nat)
    requires CanFreeze(disk, draft) && p < |draft.pages| && i < |draft.pages[p].items|
    ensures var item, frozen := draft.pages[p].items[i], Frozen(disk, draft).pages[p].items[i];
            && frozen.(content := item.content) == item
            && (if NeedsAsset(item) then ShowsSameFile(disk, Manifest(disk, draft), item, frozen) else frozen == item)
  {
    var item := draft.pages[p].items[i];
    if NeedsAsset(item) {
      var n, ref := ImageIsFrozen(disk, draft, p, i);
      hide CanFreeze, Manifest, ShowsSameFile;
      FrozenAssetShows(disk, Manifest(disk, draft), n, item);
    }
  }

  lemma {:induction false} FrozenItemIds(disk: Disk, pages: seq<Page>)
    ensures Store.ItemIds(FrozenPages(disk, pages)) == Store.ItemIds(pages)
  {
    if pages != [] {
      var front, last := pages[..|pages| - 1], pages[|pages| - 1];
      var frozen := FrozenPages(disk, pages);
      FrozenItemIds(disk, front);
      assert frozen[..|pages| - 1] == FrozenPages(disk, front);
      assert seq(|frozen[|pages| - 1].items|,
                 i requires 0 <= i < |frozen[|pages| - 1].items| => frozen[|pages| - 1].items[i].id)
          == seq(|last.items|, i requires 0 <= i < |last.items| => last.items[i].id);
    }
  }

  lemma {:induction false} KeptFontIds(fonts: seq<Font>)
    requires Distinct(Store.FontIds(fonts))
    ensures Distinct(Store.FontIds(OnePerName(fonts))) && forall id :: id in Store.FontIds(OnePerName(fonts)) ==>
              id in Store.FontIds(fonts)
  {
    if fonts != [] {
      var front, last := fonts[..|fonts| - 1], fonts[|fonts| - 1];
      assert Store.FontIds(fonts) == Store.FontIds(front) + [last.id];
      assert forall i :: 0 <= i < |front| ==> Store.FontIds(fonts)[i] == Store.FontIds(front)[i];
      KeptFontIds(front);
      forall k | 0 <= k < |front| ensures Store.FontIds(front)[k] != last.id {
        assert Store.FontIds(fonts)[k] != Store.FontIds(fonts)[|front|];
      }
      assert last.id !in Store.FontIds(front) && last.id !in Store.FontIds(OnePerName(front));
      assert Store.FontIds(OnePerName(front) + [last]) == Store.FontIds(OnePerName(front)) + [last.id];
    }
  }

  /** An entry with a file name that none before it has. */
  ghost predicate FirstAt(fonts: seq<Font>, i: int, font: Font) {
    0 <= i < |fonts| && fonts[i] == font && forall j :: 0 <= j < i ==> fonts[j].filename != font.filename
  }

  /** Fonts that froze to one file are one entry, the first of them; no other is lost or made up. */
  lemma {:induction false} FirstFontIsKept(fonts: seq<Font>)
    ensures forall font :: font in OnePerName(fonts) <==> exists i :: FirstAt(fonts, i, font)
  {
    if fonts != [] {
      var front, n := fonts[..|fonts| - 1], |fonts| - 1;
      FirstFontIsKept(front);
      OnePerNameAre(front);
      assert forall font :: font in OnePerName(fonts) <==>
               font in OnePerName(front) || (font == fonts[n] && !IsFont(front, font.filename));
      hide OnePerName;
      forall font ensures (exists i :: FirstAt(fonts, i, font)) <==>
                            (exists i :: FirstAt(front, i, font))
                            || (font == fonts[n] && !IsFont(front, font.filename))
      {
        FirstsGrow(fonts, font);
      }
    }
  }

  lemma FirstsGrow(fonts: seq<Font>, font: Font)
    requires fonts != []
    ensures var front, n := fonts[..|fonts| - 1], |fonts| - 1;
            (exists i :: FirstAt(fonts, i, font)) <==>
              (exists i :: FirstAt(front, i, font)) || (font == fonts[n] && !IsFont(front, font.filename))
  {
    var front, n := fonts[..|fonts| - 1], |fonts| - 1;
    assert forall i :: 0 <= i < n ==> front[i] == fonts[i];
    if i :| FirstAt(front, i, font) {
      assert FirstAt(fonts, i, font);
    }
    if font == fonts[n] && !IsFont(front, font.filename) {
      assert FirstAt(fonts, n, font);
    }
    if i :| FirstAt(fonts, i, font) {
      assert i < n ==> FirstAt(front, i, font);
    }
  }

  /** Freezing changes contents of images and names of fonts, and nothing else of the draft. */
  lemma FreezingKeepsTheRest(disk: Disk, draft: Snapshot)
    ensures var frozen := Frozen(disk, draft);
            && frozen.source == draft.source && frozen.revision == draft.revision && |frozen.pages| == |draft.pages|
            && (forall p :: 0 <= p < |draft.pages| ==>
                frozen.pages[p].(items := draft.pages[p].items) == draft.pages[p]
                    && |frozen.pages[p].items| == |draft.pages[p].items|)
            && (forall key :: key != "active_font" ==> Get(frozen.config, key, "") == Get(draft.config, key, ""))
    ensures forall font :: font in Frozen(disk, draft).fonts ==>
              exists i | 0 <= i < |draft.fonts| :: font == FrozenFont(disk, draft.fonts[i])
    ensures forall i :: 0 <= i < |draft.fonts| ==>
              FrozenName(disk, FontRef(draft.fonts[i])) in Store.FontNames(Frozen(disk, draft).fonts)
  {
    var all := FrozenFonts(disk, draft.fonts);
    FirstFontIsKept(all);
    OnePerNameAre(all);
    hide FrozenName, OnePerName, ActiveAfter;
    forall font | font in Frozen(disk, draft).fonts
      ensures exists i | 0 <= i < |draft.fonts| :: font == FrozenFont(disk, draft.fonts[i])
    {
      var i :| FirstAt(all, i, font);
      assert font == FrozenFont(disk, draft.fonts[i]);
    }
    forall i | 0 <= i < |draft.fonts|
      ensures FrozenName(disk, FontRef(draft.fonts[i])) in Store.FontNames(Frozen(disk, draft).fonts)
    {
      assert all[i].filename == FrozenName(disk, FontRef(draft.fonts[i])) && IsFont(all, all[i].filename);
    }
  }

  /** The room's tables take what was frozen: if the draft's row ids are distinct, so are all ids and file names of the
      frozen rows. */
  lemma FrozenIsInsertable(disk: Disk, draft: Snapshot)
    requires CanFreeze(disk, draft)
    requires Distinct(Store.PageIds(draft.pages)) && Distinct(Store.ItemIds(draft.pages))
             && Distinct(Store.FontIds(draft.fonts))
    ensures Store.Insertable(Frozen(disk, draft))
  {
    FrozenFontsAreListed(disk, draft);
    FrozenItemIds(disk, draft.pages);
    assert Store.FontIds(FrozenFonts(disk, draft.fonts)) == Store.FontIds(draft.fonts);
    KeptFontIds(FrozenFonts(disk, draft.fonts));
    assert Store.PageIds(FrozenPages(disk, draft.pages)) == Store.PageIds(draft.pages);
  }

  // ----- The freezing loops -----

  ghost predicate Fits(disk: Disk, refs: seq<Ref>) {
    (forall ref :: ref in refs ==> Freezable(disk, ref)) && Total(FrozenAssets(disk, Firsts(refs))) <= MAX_TOTAL
  }

  lemma {:induction false} FirstsPrefix(refs: seq<Ref>, more: seq<Ref>)
    ensures Firsts(refs) <= Firsts(refs + more)
  {
    if more == [] {
      assert refs + more == refs;
    } else {
      assert (refs + more)[..|refs + more| - 1] == refs + more[..|more| - 1];
      FirstsPrefix(refs, more[..|more| - 1]);
    }
  }

  /** What does not fit at some point never fits with more to come. */
  lemma FitsPrefix(disk: Disk, refs: seq<Ref>, more: seq<Ref>)
    requires GoodDigests(disk.sha) && Fits(disk, refs + more)
    ensures Fits(disk, refs)
  {
    forall ref | ref in refs ensures Freezable(disk, ref) {
      assert ref in refs + more;
    }
    FirstsPrefix(refs, more);
    FirstsAre(refs + more);
    var firsts := Firsts(refs + more);
    var all := FrozenAssets(disk, firsts);
    assert all[..|Firsts(refs)|] == FrozenAssets(disk, Firsts(refs));
    forall n | 0 <= n < |all| ensures AssetAccepted(all[n]) {
      hide *;
      assert firsts[n] in refs + more;
      assert Freezable(disk, firsts[n]);
      FrozenAssetIsAccepted(disk, firsts[n]);
    }
    hide AssetAccepted, Freezable, FrozenAsset;
    TotalGrows(all, |Firsts(refs)|);
  }

  lemma TotalSnoc(assets: seq<Asset>, asset: Asset)
    ensures Total(assets + [asset]) == Total(assets) + asset.size
  {
    assert (assets + [asset])[..|assets|] == assets;
  }

  lemma OneMoreRef(disk: Disk, refs: seq<Ref>, ref: Ref)
    ensures ref in refs ==> Firsts(refs + [ref]) == Firsts(refs)
    ensures ref !in refs ==>
              FrozenAssets(disk, Firsts(refs + [ref])) == FrozenAssets(disk, Firsts(refs)) + [FrozenAsset(disk, ref)]
  {
    assert (refs + [ref])[..|refs|] == refs;
    if ref !in refs {
      assert Firsts(refs + [ref]) == Firsts(refs) + [ref];
      hide Firsts, FrozenAsset;
      assert FrozenAssets(disk, Firsts(refs) + [ref]) == FrozenAssets(disk, Firsts(refs)) + [FrozenAsset(disk, ref)];
    }
  }

  lemma OneMoreFits(disk: Disk, refs: seq<Ref>, ref: Ref)
    requires Fits(disk, refs)
    ensures Fits(disk, refs + [ref]) <==>
              Freezable(disk, ref) && (ref in refs
                                       || Total(FrozenAssets(disk, Firsts(refs)))
                                            + FrozenAsset(disk, ref).size <= MAX_TOTAL)
  {
    OneMoreRef(disk, refs, ref);
    hide Firsts, FrozenAssets, FrozenAsset, Freezable;
    assert forall r :: r in refs + [ref] <==> r in refs || r == ref;
    TotalSnoc(FrozenAssets(disk, Firsts(refs)), FrozenAsset(disk, ref));
  }

  lemma AllFreezable(disk: Disk, refs: seq<Ref>, ref: Ref)
    requires Fits(disk, refs) && ref in refs
    ensures Freezable(disk, ref)
  {
  }

  lemma OneMoreFont(disk: Disk, draft: seq<Font>, start: string, f: nat)
    requires f < |draft|
    ensures FontRefs(draft[..f + 1]) == FontRefs(draft[..f]) + [FontRef(draft[f])]
    ensures |FrozenFonts(disk, draft[..f]) + draft[f..]| == |draft|
            && (FrozenFonts(disk, draft[..f]) + draft[f..])[f] == draft[f]
    ensures FrozenFonts(disk, draft[..f + 1]) + draft[f + 1..]
              == (FrozenFonts(disk, draft[..f]) + draft[f..])[f := FrozenFont(disk, draft[f])]
    ensures var before := ActiveAfter(disk, draft[..f], start);
            ActiveAfter(disk, draft[..f + 1], start) == if before == draft[f].filename
                then FrozenName(disk, FontRef(draft[f])) else before
  {
    assert draft[..f + 1][..f] == draft[..f];
    hide FrozenName, FontRef, ActiveAfter, FrozenFont;
    assert FrozenFonts(disk, draft[..f + 1]) == FrozenFonts(disk, draft[..f]) + [FrozenFont(disk, draft[f])];
    ReplaceNext(FrozenFonts(disk, draft[..f]), draft, f, FrozenFont(disk, draft[f]));
  }

  lemma ReplaceNext<T>(done: seq<T>, draft: seq<T>, n: nat, next: T)
    requires n < |draft| && |done| == n
    ensures |done + draft[n..]| == |draft| && (done + draft[n..])[n] == draft[n]
    ensures done + [next] + draft[n + 1..] == (done + draft[n..])[n := next]
  {
  }

  lemma OneMorePage(disk: Disk, draft: seq<Page>, refs: seq<Ref>, p: nat)
    requires p < |draft|
    ensures refs + PageRefs(draft[..p + 1]) == refs + PageRefs(draft[..p]) + ItemRefs(draft[p].items)
    ensures |FrozenPages(disk, draft[..p]) + draft[p..]| == |draft|
            && (FrozenPages(disk, draft[..p]) + draft[p..])[p] == draft[p]
    ensures FrozenPages(disk, draft[..p + 1]) + draft[p + 1..]
              == (FrozenPages(disk, draft[..p]) + draft[p..])[p := FrozenPage(disk, draft[p])]
    ensures AllUploaded(draft[..p + 1]) <==>
              AllUploaded(draft[..p]) && forall i :: 0 <= i < |draft[p].items| && NeedsAsset(draft[p].items[i]) ==>
                  Uploaded(draft[p].items[i])
  {
    assert draft[..p + 1][..p] == draft[..p];
    hide FrozenItems, ItemRefs, FrozenPage;
    assert FrozenPages(disk, draft[..p + 1]) == FrozenPages(disk, draft[..p]) + [FrozenPage(disk, draft[p])];
    ReplaceNext(FrozenPages(disk, draft[..p]), draft, p, FrozenPage(disk, draft[p]));
    assert forall k :: 0 <= k < p ==> draft[..p + 1][k] == draft[..p][k];
    assert draft[..p + 1][p] == draft[p];
  }

  /** The manifest and the remembered names are those of the references frozen so far. */
  ghost predicate Remembered(assets: seq<Asset>, names: map<Ref, string>, total: int, disk: Disk, refs: seq<Ref>) {
    && Fits(disk, refs) && assets == FrozenAssets(disk, Firsts(refs)) && total == Total(assets)
    && (forall ref :: ref in names <==> ref in refs)
       && (forall ref :: ref in names ==> names[ref] == FrozenName(disk, ref))
  }

  lemma RefIsRemembered(assets: seq<Asset>, names: map<Ref, string>, total: int, disk: Disk, refs: seq<Ref>, ref: Ref)
    requires Remembered(assets, names, total, disk, refs) && ref in names
    ensures names[ref] == FrozenName(disk, ref) && Fits(disk, refs + [ref])
            && Remembered(assets, names, total, disk, refs + [ref])
  {
    OneMoreRef(disk, refs, ref);
    OneMoreFits(disk, refs, ref);
    AllFreezable(disk, refs, ref);
    hide Fits, FrozenAssets, Firsts, Total, FrozenName, Freezable;
    assert forall r :: r in refs + [ref] <==> r in refs;
  }

  lemma RefIsRefused(assets: seq<Asset>, names: map<Ref, string>, total: int, disk: Disk, refs: seq<Ref>, ref: Ref)
    requires Remembered(assets, names, total, disk, refs)
    requires !Freezable(disk, ref) || (ref !in names && total + |disk.files[ref]| > MAX_TOTAL)
    ensures !Fits(disk, refs + [ref])
  {
    OneMoreFits(disk, refs, ref);
    hide Fits, FrozenAssets, Firsts, Total, FrozenName;
  }

  lemma RefIsNew(assets: seq<Asset>, names: map<Ref, string>, total: int, disk: Disk, refs: seq<Ref>, ref: Ref)
    requires Remembered(assets, names, total, disk, refs) && ref !in names && Freezable(disk, ref)
             && total + |disk.files[ref]| <= MAX_TOTAL
    ensures Remembered(assets + [FrozenAsset(disk, ref)], names[ref := FrozenName(disk, ref)],
                       total + |disk.files[ref]|, disk, refs + [ref])
  {
    OneMoreRef(disk, refs, ref);
    OneMoreFits(disk, refs, ref);
    TotalSnoc(assets, FrozenAsset(disk, ref));
    hide Fits, FrozenAssets, Firsts, Total, FrozenName;
    assert forall r :: r in refs + [ref] <==> r in refs || r == ref;
  }

  lemma RememberedFits(assets: seq<Asset>, names: map<Ref, string>, total: int, disk: Disk, refs: seq<Ref>)
    requires Remembered(assets, names, total, disk, refs)
    ensures Fits(disk, refs)
  {
    hide Fits;
  }

  lemma OneMoreItem(disk: Disk, items: seq<Item>, refs: seq<Ref>, i: nat)
    requires i < |items|
    ensures FrozenItems(disk, items[..i + 1]) == FrozenItems(disk, items[..i]) + [FrozenItem(disk, items[i])]
    ensures refs + ItemRefs(items[..i + 1])
            == if NeedsAsset(items[i]) then refs + ItemRefs(items[..i]) + [ImageRef(items[i])]
                else refs + ItemRefs(items[..i])
  {
    assert items[..i + 1][..i] == items[..i];
    hide FrozenItem, ImageRef, NeedsAsset;
  }

  class Release {
    var pages: seq<Page>
    var fonts: seq<Font>
    var active: string
    var assets: seq<Asset>
    var names: map<Ref, string>
    var total: int

    constructor (draft: Snapshot)
      ensures pages == draft.pages && fonts == draft.fonts && active == Get(draft.config, "active_font", "")
      ensures forall disk: Disk :: Holds(disk, [])
    {
      pages, fonts, active := draft.pages, draft.fonts, Get(draft.config, "active_font", "");
      assets, names, total := [], map[], 0;
    }

    ghost predicate Holds(disk: Disk, refs: seq<Ref>)
      reads this`assets, this`names, this`total
    {
      Remembered(assets, names, total, disk, refs)
    }

    /** Freezes one file, once: a second reference to it gets the remembered name. */
    method FreezeFile(disk: Disk, ref: Ref, ghost refs: seq<Ref>) returns (name: Option<string>)
      requires Holds(disk, refs)
      modifies this`assets, this`names, this`total
      ensures name.Some? <==> Fits(disk, refs + [ref])
      ensures name.Some? ==> name.value == FrozenName(disk, ref) && Holds(disk, refs + [ref])
    {
      hide Remembered, Fits, FrozenName;
      if ref in names {
        RefIsRemembered(assets, names, total, disk, refs, ref);
        return Some(names[ref]);
      }
      if !Freezable(disk, ref) {
        RefIsRefused(assets, names, total, disk, refs, ref);
        return None;
      }
      var size := |disk.files[ref]|;
      if total + size > MAX_TOTAL {
        RefIsRefused(assets, names, total, disk, refs, ref);
        total := total + size;
        return None;
      }
      RefIsNew(assets, names, total, disk, refs, ref);
      RememberedFits(assets + [FrozenAsset(disk, ref)], names[ref := FrozenName(disk, ref)], total + size, disk,
                     refs + [ref]);
      total := total + size;
      var frozen := Note(disk, ref);
      return Some(frozen);
    }

    /** Notes the frozen file's name and adds it to the assets. */
    method Note(disk: Disk, ref: Ref) returns (frozen: string)
      requires ref in disk.files
      modifies this`assets, this`names
      ensures frozen == FrozenName(disk, ref) && names == old(names)[ref := frozen]
      ensures assets == old(assets) + [FrozenAsset(disk, ref)]
    {
      var digest := disk.sha(disk.files[ref]);
      frozen := digest + Lower(Extension(ref.name));
      names := names[ref := frozen];
      assets := assets + [Asset(ref.kind + "/" + frozen, digest, |disk.files[ref]|)];
    }

    /** The first f fonts are frozen, the others are still the draft's. */
    ghost predicate FontsDone(disk: Disk, draft: seq<Font>, start: string, f: nat)
      reads this`assets, this`names, this`total, this`fonts, this`active
    {
      && f <= |draft| && Holds(disk, FontRefs(draft[..f])) && fonts == FrozenFonts(disk, draft[..f]) + draft[f..]
      && active == ActiveAfter(disk, draft[..f], start)
    }

    /** One font of the draft; the active font follows its file. */
    method FreezeFont(disk: Disk, f: nat, ghost refs: seq<Ref>) returns (ok: bool)
      requires f < |fonts| && Holds(disk, refs)
      modifies this`assets, this`names, this`total, this`fonts, this`active
      ensures ok <==> Fits(disk, refs + [FontRef(old(fonts)[f])])
      ensures ok ==>
                Holds(disk, refs + [FontRef(old(fonts)[f])])
                    && fonts == old(fonts)[f := FrozenFont(disk, old(fonts)[f])]
      ensures ok ==>
                active == if old(active) == old(fonts)[f].filename then FrozenName(disk, FontRef(old(fonts)[f]))
                    else old(active)
    {
      hide Holds, Fits, FrozenName;
      var name := FreezeFile(disk, Ref("fonts", fonts[f].filename), refs);
      if name.Some? {
        Rename(f, name.value);
      }
      return name.Some?;
    }

    lemma NextFont(disk: Disk, draft: seq<Font>, start: string, f: nat)
      requires FontsDone(disk, draft, start, f) && f < |draft|
      ensures |fonts| == |draft| && fonts[f] == draft[f] && Holds(disk, FontRefs(draft[..f]))
      ensures fonts == FrozenFonts(disk, draft[..f]) + draft[f..] && active == ActiveAfter(disk, draft[..f], start)
    {
      hide Holds;
      OneMoreFont(disk, draft, start, f);
    }

    lemma FontFrozen(disk: Disk, draft: seq<Font>, start: string, f: nat, before: seq<Font>, activeBefore: string)
      requires f < |draft| && before == FrozenFonts(disk, draft[..f]) + draft[f..]
               && activeBefore == ActiveAfter(disk, draft[..f], start)
      requires Holds(disk, FontRefs(draft[..f]) + [FontRef(draft[f])])
               && fonts == before[f := FrozenFont(disk, draft[f])]
      requires active == if activeBefore == draft[f].filename then FrozenName(disk, FontRef(draft[f])) else activeBefore
      ensures FontsDone(disk, draft, start, f + 1)
    {
      hide Holds, FrozenFont, FrozenName;
      OneMoreFont(disk, draft, start, f);
    }

    /** Gives a font its new file name; the active font follows. */
    method Rename(f: nat, name: string)
      requires f < |fonts|
      modifies this`fonts, this`active
      ensures fonts == old(fonts)[f := old(fonts)[f].(filename := name)]
      ensures active == if old(active) == old(fonts)[f].filename then name else old(active)
    {
      if active == fonts[f].filename {
        active := name;
      }
      fonts := fonts[f := fonts[f].(filename := name)];
    }

    /** All fonts of the draft. */
    method FreezeFonts(disk: Disk) returns (ok: bool)
      requires Holds(disk, []) && GoodDigests(disk.sha)
      modifies this`assets, this`names, this`total, this`fonts, this`active
      ensures ok <==> Fits(disk, FontRefs(old(fonts)))
      ensures ok ==>
                Holds(disk, FontRefs(old(fonts))) && fonts == FrozenFonts(disk, old(fonts))
                    && active == ActiveAfter(disk, old(fonts), old(active))
    {
      ghost var draft, start := fonts, active;
      var count := |fonts|;
      assert FontRefs(draft[..0]) == [] && FrozenFonts(disk, draft[..0]) + draft[0..] == draft;
      assert FontsDone(disk, draft, start, 0);
      assert draft[..count] == draft && draft[count..] == [];
      for f := 0 to count
        invariant FontsDone(disk, draft, start, f)
      {
        hide FontsDone, Fits, FontRefs;
        var frozen := FreezeNextFont(disk, draft, start, f);
        if !frozen {
          return false;
        }
      }
      HoldsFits(disk, FontRefs(draft));
      return true;
    }

    method FreezeNextFont(disk: Disk, ghost draft: seq<Font>, ghost start: string, f: nat) returns (ok: bool)
      requires FontsDone(disk, draft, start, f) && f < |draft| && GoodDigests(disk.sha)
      modifies this`assets, this`names, this`total, this`fonts, this`active
      ensures ok ==> FontsDone(disk, draft, start, f + 1)
      ensures !ok ==> !Fits(disk, FontRefs(draft))
    {
      hide FontsDone, Fits, Holds, FontRefs, FrozenFont;
      NextFont(disk, draft, start, f);
      OneMoreFont(disk, draft, start, f);
      ghost var before, activeBefore := fonts, active;
      ok := FreezeFont(disk, f, FontRefs(draft[..f]));
      if ok {
        FontFrozen(disk, draft, start, f, before, activeBefore);
      } else {
        FontsTooMuch(disk, draft, f + 1);
      }
    }

    lemma HoldsFits(disk: Disk, refs: seq<Ref>)
      requires Holds(disk, refs)
      ensures Fits(disk, refs)
    {
    }

    /** Fonts that froze to the same file keep only their first entry. */
    method DropDuplicateFonts()
      modifies this`fonts
      ensures fonts == OnePerName(old(fonts))
    {
      var kept: seq<Font> := [];
      var seen: set<string> := {};
      for f := 0 to |fonts|
        invariant kept == OnePerName(fonts[..f])
        invariant forall name :: name in seen <==> name in Store.FontNames(kept)
      {
        assert fonts[..f + 1][..f] == fonts[..f];
        if fonts[f].filename !in seen {
          assert Store.FontNames(kept + [fonts[f]]) == Store.FontNames(kept) + [fonts[f].filename];
          kept, seen := kept + [fonts[f]], seen + {fonts[f].filename};
        }
      }
      assert fonts[..|fonts|] == fonts;
      fonts := kept;
    }

    /** An item's image, if it needs one: it must have been uploaded here. */
    method FreezeItem(disk: Disk, item: Item, ghost refs: seq<Ref>) returns (frozen: Option<Item>)
      requires Holds(disk, refs)
      modifies this`assets, this`names, this`total
      ensures frozen.Some? <==> (NeedsAsset(item) ==> Uploaded(item) && Fits(disk, refs + [ImageRef(item)]))
      ensures frozen.Some? ==>
                frozen.value == FrozenItem(disk, item)
                    && Holds(disk, if NeedsAsset(item) then refs + [ImageRef(item)] else refs)
    {
      if !NeedsAsset(item) {
        return Some(item);
      }
      if !(IMAGES <= item.content) {
        return None;
      }
      hide Holds, Fits, FrozenName;
      var name := FreezeFile(disk, Ref("images", item.content[|IMAGES|..]), refs);
      return if name.None? then None else Some(item.(content := IMAGES + name.value));
    }

    /** The first n items are frozen. */
    ghost predicate ItemsDone(disk: Disk, items: seq<Item>, refs: seq<Ref>, n: nat, done: seq<Item>)
      reads this`assets, this`names, this`total
    {
      && n <= |items| && done == FrozenItems(disk, items[..n]) && Holds(disk, refs + ItemRefs(items[..n]))
      && forall k :: 0 <= k < n && NeedsAsset(items[k]) ==> Uploaded(items[k])
    }

    lemma NoItemsDone(disk: Disk, items: seq<Item>, refs: seq<Ref>)
      requires Holds(disk, refs)
      ensures ItemsDone(disk, items, refs, 0, [])
    {
      assert refs + [] == refs;
    }

    lemma AllItemsDone(disk: Disk, items: seq<Item>, refs: seq<Ref>, done: seq<Item>)
      requires ItemsDone(disk, items, refs, |items|, done)
      ensures done == FrozenItems(disk, items) && Holds(disk, refs + ItemRefs(items))
              && Fits(disk, refs + ItemRefs(items))
      ensures forall i :: 0 <= i < |items| && NeedsAsset(items[i]) ==> Uploaded(items[i])
    {
      assert items[..|items|] == items;
      HoldsFits(disk, refs + ItemRefs(items));
    }

    method FreezeNextItem(disk: Disk, items: seq<Item>, ghost refs: seq<Ref>, i: nat, done: seq<Item>)
      returns (next: Option<seq<Item>>)
      requires ItemsDone(disk, items, refs, i, done) && i < |items| && GoodDigests(disk.sha)
      modifies this`assets, this`names, this`total
      ensures next.Some? ==> ItemsDone(disk, items, refs, i + 1, next.value)
      ensures next.None? ==>
                !(Fits(disk, refs + ItemRefs(items)) && forall k :: 0 <= k < |items| && NeedsAsset(items[k]) ==>
                  Uploaded(items[k]))
    {
      OneMoreItem(disk, items, refs, i);
      hide Holds, Fits, ItemRefs, FrozenItems, FrozenItem, NeedsAsset, Uploaded, ImageRef;
      var item := FreezeItem(disk, items[i], refs + ItemRefs(items[..i]));
      if item.None? {
        if Uploaded(items[i]) {
          ItemsTooMuch(disk, refs, items, i + 1);
        }
        return None;
      }
      return Some(done + [item.value]);
    }

    /** The images of one page. */
    method FreezeItems(disk: Disk, items: seq<Item>, ghost refs: seq<Ref>) returns (frozen: Option<seq<Item>>)
      requires Holds(disk, refs) && GoodDigests(disk.sha)
      modifies this`assets, this`names, this`total
      ensures frozen.Some? <==>
                Fits(disk, refs + ItemRefs(items)) && forall i :: 0 <= i < |items| && NeedsAsset(items[i]) ==>
                    Uploaded(items[i])
      ensures frozen.Some? ==> frozen.value == FrozenItems(disk, items) && Holds(disk, refs + ItemRefs(items))
    {
      var done: seq<Item> := [];
      NoItemsDone(disk, items, refs);
      hide ItemsDone, Holds, Fits, ItemRefs, FrozenItems, NeedsAsset, Uploaded;
      for i := 0 to |items|
        invariant ItemsDone(disk, items, refs, i, done)
      {
        var next := FreezeNextItem(disk, items, refs, i, done);
        if next.None? {
          return None;
        }
        done := next.value;
      }
      AllItemsDone(disk, items, refs, done);
      return Some(done);
    }

    /** The first p pages are frozen, the others are still the draft's. */
    ghost predicate PagesDone(disk: Disk, draft: seq<Page>, refs: seq<Ref>, p: nat)
      reads this`assets, this`names, this`total, this`pages
    {
      && p <= |draft| && Holds(disk, refs + PageRefs(draft[..p])) && pages == FrozenPages(disk, draft[..p]) + draft[p..]
         && AllUploaded(draft[..p])
    }

    method FreezePage(disk: Disk, p: nat, ghost draft: seq<Page>, ghost refs: seq<Ref>) returns (ok: bool)
      requires PagesDone(disk, draft, refs, p) && p < |draft| && GoodDigests(disk.sha)
      modifies this`assets, this`names, this`total, this`pages
      ensures ok <==> Fits(disk, refs + PageRefs(draft[..p + 1])) && AllUploaded(draft[..p + 1])
      ensures ok ==> PagesDone(disk, draft, refs, p + 1)
    {
      OneMorePage(disk, draft, refs, p);
      hide Holds, Fits, PageRefs, FrozenPages, FrozenItems, AllUploaded;
      var items := FreezeItems(disk, pages[p].items, refs + PageRefs(draft[..p]));
      if items.None? {
        return false;
      }
      pages := pages[p := pages[p].(items := items.value)];
      HoldsFits(disk, refs + PageRefs(draft[..p + 1]));
      return true;
    }

    /** All pages of the draft. */
    method FreezePages(disk: Disk, ghost refs: seq<Ref>) returns (ok: bool)
      requires Holds(disk, refs) && GoodDigests(disk.sha)
      modifies this`assets, this`names, this`total, this`pages
      ensures ok <==> Fits(disk, refs + PageRefs(old(pages))) && AllUploaded(old(pages))
      ensures ok ==> pages == FrozenPages(disk, old(pages)) && Holds(disk, refs + PageRefs(old(pages)))
    {
      ghost var draft := pages;
      var count := |pages|;
      assert refs + PageRefs(draft[..0]) == refs && FrozenPages(disk, draft[..0]) + draft[0..] == draft;
      assert PagesDone(disk, draft, refs, 0);
      assert draft[..count] == draft && draft[count..] == [];
      for p := 0 to count
        invariant PagesDone(disk, draft, refs, p)
      {
        hide PagesDone, Fits, AllUploaded;
        var frozen := FreezePage(disk, p, draft, refs);
        if !frozen {
          PagesTooMuch(disk, refs, draft, p + 1);
          return false;
        }
      }
      HoldsFits(disk, refs + PageRefs(draft));
      return true;
    }

    /** The whole freeze: it succeeds exactly if every referenced file can be frozen, every image was uploaded, and
        everything fits. */
    method Freeze(disk: Disk, ghost draft: Snapshot) returns (ok: bool)
      requires pages == draft.pages && fonts == draft.fonts && active == Get(draft.config, "active_font", "")
      requires Holds(disk, []) && GoodDigests(disk.sha)
      modifies this
      ensures ok <==> CanFreeze(disk, draft)
      ensures ok ==> assets == Manifest(disk, draft)
      ensures ok ==>
                draft.(pages := pages, fonts := fonts, config := WithActive(draft.config, active))
                    == Frozen(disk, draft)
    {
      hide Fits, Manifest, Freezable, ActiveAfter, OnePerName, AllUploaded;
      ok := FreezeFonts(disk);
      if !ok {
        FontsDecide(disk, draft);
        return;
      }
      DropDuplicateFonts();
      ok := FreezePages(disk, FontRefs(draft.fonts));
      FitsIsCanFreeze(disk, draft);
    }
  }

  lemma FontsTooMuch(disk: Disk, fonts: seq<Font>, n: nat)
    requires GoodDigests(disk.sha) && n <= |fonts| && !Fits(disk, FontRefs(fonts[..n]))
    ensures !Fits(disk, FontRefs(fonts))
  {
    hide Fits;
    assert FontRefs(fonts) == FontRefs(fonts[..n]) + FontRefs(fonts[n..]);
    if Fits(disk, FontRefs(fonts)) {
      FitsPrefix(disk, FontRefs(fonts[..n]), FontRefs(fonts[n..]));
    }
  }

  lemma {:induction false} ItemRefsSplit(items: seq<Item>, n: nat) returns (rest: seq<Ref>)
    requires n <= |items|
    ensures ItemRefs(items) == ItemRefs(items[..n]) + rest
  {
    if n == |items| {
      assert items[..n] == items;
      rest := [];
    } else {
      var front := items[..|items| - 1];
      assert front[..n] == items[..n];
      rest := ItemRefsSplit(front, n);
      rest := rest + if NeedsAsset(items[|items| - 1]) then [ImageRef(items[|items| - 1])] else [];
    }
  }

  lemma ItemsTooMuch(disk: Disk, refs: seq<Ref>, items: seq<Item>, n: nat)
    requires GoodDigests(disk.sha) && n <= |items| && !Fits(disk, refs + ItemRefs(items[..n]))
    ensures !Fits(disk, refs + ItemRefs(items))
  {
    hide Fits;
    var rest := ItemRefsSplit(items, n);
    assert refs + ItemRefs(items) == (refs + ItemRefs(items[..n])) + rest;
    if Fits(disk, refs + ItemRefs(items)) {
      FitsPrefix(disk, refs + ItemRefs(items[..n]), rest);
    }
  }

  lemma {:induction false} PageRefsSplit(pages: seq<Page>, n: nat) returns (rest: seq<Ref>)
    requires n <= |pages|
    ensures PageRefs(pages) == PageRefs(pages[..n]) + rest
  {
    if n == |pages| {
      assert pages[..n] == pages;
      rest := [];
    } else {
      var front := pages[..|pages| - 1];
      assert front[..n] == pages[..n];
      rest := PageRefsSplit(front, n);
      rest := rest + ItemRefs(pages[|pages| - 1].items);
    }
  }

  /** A page that does not fit, or shows an image from elsewhere, spoils the whole draft. */
  lemma PagesTooMuch(disk: Disk, refs: seq<Ref>, pages: seq<Page>, n: nat)
    requires GoodDigests(disk.sha) && n <= |pages|
             && !(Fits(disk, refs + PageRefs(pages[..n])) && AllUploaded(pages[..n]))
    ensures !(Fits(disk, refs + PageRefs(pages)) && AllUploaded(pages))
  {
    hide Fits;
    var rest := PageRefsSplit(pages, n);
    assert refs + PageRefs(pages) == (refs + PageRefs(pages[..n])) + rest;
    if Fits(disk, refs + PageRefs(pages)) {
      FitsPrefix(disk, refs + PageRefs(pages[..n]), rest);
    }
    assert AllUploaded(pages) ==> AllUploaded(pages[..n]);
  }

  lemma FitsIsCanFreeze(disk: Disk, draft: Snapshot)
    ensures CanFreeze(disk, draft) <==>
              Fits(disk, FontRefs(draft.fonts) + PageRefs(draft.pages)) && AllUploaded(draft.pages)
    ensures Manifest(disk, draft) == FrozenAssets(disk, Firsts(FontRefs(draft.fonts) + PageRefs(draft.pages)))
  {
  }

  lemma FontsDecide(disk: Disk, draft: Snapshot)
    requires GoodDigests(disk.sha) && !Fits(disk, FontRefs(draft.fonts))
    ensures !CanFreeze(disk, draft)
  {
    FitsIsCanFreeze(disk, draft);
    hide Fits, CanFreeze;
    if Fits(disk, FontRefs(draft.fonts) + PageRefs(draft.pages)) {
      FitsPrefix(disk, FontRefs(draft.fonts), PageRefs(draft.pages));
    }
  }
}

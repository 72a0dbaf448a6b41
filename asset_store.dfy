/**
 * The client side of image storage (`tldrawAssetStore.ts`): the storage name
 * `uploadImageFile` builds for a file, and `myAssetStore.resolve`.  The id comes from
 * tldraw's `uniqueId` and is an input.
 */
module AssetStore {
  import opened Wrappers
  import opened JsText
  import opened StorageNames

  const ImageTypeMarker: string := "image/"

  /** `(customName ?? file.name)` through both replacements. */
  function BaseName(customName: Option<string>, fileName: string): string {
    CollapseWhitespace(Sanitize(if customName.Some? then customName.value else fileName))
  }

  /** The base name is the chosen name with every disallowed code unit replaced by one `_`:
      a given custom name wins even when it is empty, the result holds one allowed
      character per code unit, and on text within the Basic Multilingual Plane every
      allowed character stays where it was. */
  lemma BaseNameSpec(customName: Option<string>, fileName: string)
    ensures var chosen := if customName.Some? then customName.value else fileName;
      var r := BaseName(customName, fileName);
      && r == Sanitize(chosen) && AllSafe(r) && |r| == Utf16Length(chosen)
      && (Utf16Length(chosen) == |chosen| ==>
            forall i :: 0 <= i < |chosen| && IsSafeChar(chosen[i]) ==> r[i] == chosen[i])
  {
    var chosen := if customName.Some? then customName.value else fileName;
    CollapseAfterSanitize(chosen);
    SanitizeSpec(chosen);
    if Utf16Length(chosen) == |chosen| {
      SanitizeBmp(chosen);
    }
  }

  /** What `.*` matches: the text up to the first line terminator. */
  function RestOfLine(s: string): (r: string)
    ensures |r| <= |s| && r == s[..|r|]
    ensures forall i :: 0 <= i < |r| ==> !IsLineTerminator(r[i])
    ensures |r| < |s| ==> IsLineTerminator(s[|r|])
  {
    if s == [] || IsLineTerminator(s[0]) then [] else [s[0]] + RestOfLine(s[1..])
  }

  /** `match = type.match(/image\/(.*)/); match ? '.' + match[1] : ''`. */
  function ExtensionFromType(mimeType: string): string {
    var i := IndexOf(mimeType, ImageTypeMarker);
    if i == -1 then "" else "." + RestOfLine(mimeType[i + |ImageTypeMarker|..])
  }

  /** No extension exactly when the type does not contain `image/`; otherwise a dot and the
      rest of the line after its first occurrence. */
  lemma ExtensionFromTypeSpec(mimeType: string)
    ensures var r := ExtensionFromType(mimeType); var i := IndexOf(mimeType, ImageTypeMarker);
      && (r == "" <==> i == -1)
      && (i != -1 ==>
            r[0] == '.' && r[1..] == RestOfLine(mimeType[i + |ImageTypeMarker|..])
            && mimeType[i + |ImageTypeMarker|..][..|r| - 1] == r[1..])
  {
    var i := IndexOf(mimeType, ImageTypeMarker);
    if i != -1 {
      var r := ExtensionFromType(mimeType);
      assert r[1..] == RestOfLine(mimeType[i + |ImageTypeMarker|..]);
    }
  }

  /** A PNG file gets `.png`. */
  lemma ExtensionOfPng()
    ensures ExtensionFromType("image/png") == ".png"
  {
    var t := "image/png";
    assert OccursAt(t, ImageTypeMarker, 0);
    assert IndexOf(t, ImageTypeMarker) == 0;
    assert t[6..] == "png";
    assert RestOfLine("png") == "png";
  }

  /** `${baseName}-${uniqueId()}${extensionFromType}`. */
  function ClientSideImageName(customName: Option<string>, fileName: string, mimeType: string, id: string): string {
    BaseName(customName, fileName) + "-" + id + ExtensionFromType(mimeType)
  }

  /** The name opens with the base name and a dash, and ends with the id and the extension;
      when the id and the extension hold only allowed characters, so does the whole name,
      and the upload function's own sanitising then keeps it exactly. */
  lemma ClientSideImageNameSpec(customName: Option<string>, fileName: string, mimeType: string, id: string)
    ensures var r := ClientSideImageName(customName, fileName, mimeType, id);
      var base := BaseName(customName, fileName);
      && StartsWith(r, base + "-") && EndsWith(r, id + ExtensionFromType(mimeType))
      && (AllSafe(id) && AllSafe(ExtensionFromType(mimeType)) ==> AllSafe(r) && Sanitize(r) == r)
  {
    var base := BaseName(customName, fileName);
    var ext := ExtensionFromType(mimeType);
    var r := ClientSideImageName(customName, fileName, mimeType, id);
    BaseNameSpec(customName, fileName);
    assert r == (base + "-") + (id + ext) by {
      ConcatAssoc(base + "-", id, ext);
    }
    StartsWithAppend(base + "-", id + ext, base + "-");
    EndsWithAppend(base + "-", id + ext, id + ext);
    if AllSafe(id) && AllSafe(ext) {
      assert AllSafe("-");
      AllSafeAppend(base, "-");
      AllSafeAppend(base + "-", id);
      AllSafeAppend(base + "-" + id, ext);
      SanitizeSpec(r);
    }
  }

  /** `myAssetStore.resolve`: the asset's `src` when truthy, else `null` (`None`). */
  function Resolve(src: Option<string>): (r: Option<string>)
    ensures r.Some? <==> src.Some? && src.value != ""
    ensures r.Some? ==> r == src
  {
    if src.Some? && src.value != "" then src else None
  }
}

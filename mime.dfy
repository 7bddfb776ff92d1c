/**
 * File extensions and MIME types: `getExtension` and `getMimeType`
 * (src/util.ts lines 3-26).
 */
module Mime {
  import opened Wrappers
  import Js

  const Woff := "application/font-woff"
  const Jpeg := "image/jpeg"

  /** The own properties of the `mimes` table. */
  const MimeTypes: map<string, string> := map[
    "woff" := Woff,
    "woff2" := Woff,
    "ttf" := "application/font-truetype",
    "eot" := "application/vnd.ms-fontobject",
    "png" := "image/png",
    "jpg" := Jpeg,
    "jpeg" := Jpeg,
    "gif" := "image/gif",
    "tiff" := "image/tiff",
    "svg" := "image/svg+xml"
  ]

  /**
   * The properties every object literal inherits from Object.prototype.
   * Each of them is a function or an object, so each is truthy.
   */
  const ObjectPrototypeMembers: set<string> := {
    "constructor", "__proto__", "hasOwnProperty", "isPrototypeOf",
    "propertyIsEnumerable", "toLocaleString", "toString", "valueOf",
    "__defineGetter__", "__defineSetter__", "__lookupGetter__", "__lookupSetter__"
  }

  /** Index of the last '.' in `s`, if there is one. */
  function LastDot(s: string): (r: Option<nat>)
    ensures r.None? ==> '.' !in s
    ensures r.Some? ==> r.value < |s| && s[r.value] == '.' && '.' !in s[r.value + 1..]
  {
    if s == "" then None
    else if s[|s| - 1] == '.' then Some(|s| - 1)
    else
      var r := LastDot(s[..|s| - 1]);
      assert s == s[..|s| - 1] + [s[|s| - 1]];
      assert r.Some? ==> s[r.value + 1..] == s[..|s| - 1][r.value + 1..] + [s[|s| - 1]];
      r
  }

  /** The regular expression `\.([^./]*?)$` matches `url` starting at index `i`. */
  predicate ExtensionMatchAt(url: string, i: int) {
    0 <= i < |url| && url[i] == '.'
    && forall j :: i < j < |url| ==> url[j] != '.' && url[j] != '/'
  }

  /**
   * `getExtension`: the capture group of the leftmost match of
   * `\.([^./]*?)$`, or "" when there is no match. The match can only start
   * at the last '.', and only when no '/' follows it.
   */
  function GetExtension(url: string): (ext: string)
    ensures '.' !in ext && '/' !in ext
    ensures forall i :: ExtensionMatchAt(url, i) ==> ext == url[i + 1..]
    ensures (forall i :: !ExtensionMatchAt(url, i)) ==> ext == ""
  {
    match LastDot(url)
    case None => ""
    case Some(i) =>
      if '/' in url[i + 1..] then
        assert forall k :: !ExtensionMatchAt(url, k);
        ""
      else
        assert ExtensionMatchAt(url, i) by {
          forall j | i < j < |url| ensures url[j] != '.' && url[j] != '/' {
            assert url[j] == url[i + 1..][j - i - 1];
          }
        }
        assert forall k :: ExtensionMatchAt(url, k) ==> k == i;
        url[i + 1..]
  }

  /** The extension of `stem.ext` is `ext` whenever `ext` holds no '.' and no '/'. */
  lemma ExtensionOfName(stem: string, ext: string)
    requires '.' !in ext && '/' !in ext
    ensures GetExtension(stem + "." + ext) == ext
  {
    var url := stem + "." + ext;
    assert url[|stem| + 1..] == ext;
    assert ExtensionMatchAt(url, |stem|) by {
      forall j | |stem| < j < |url| ensures url[j] != '.' && url[j] != '/' {
        assert url[j] == ext[j - |stem| - 1];
      }
    }
  }

  /** A JavaScript value read from the table: a string or an inherited member. */
  datatype JsValue = Str(text: string) | Inherited(member: string)

  /**
   * `mimes[extension] || ''` exactly as written: `mimes` is an object
   * literal, so a key that is not an own property is looked up on
   * Object.prototype, and every member found there is truthy.
   */
  function GetMimeTypeAsWritten(url: string): (r: JsValue)
    ensures r.Str? ==> r.text == GetMimeType(url)
    ensures r.Inherited? ==> r.member in ObjectPrototypeMembers && GetMimeType(url) == ""
  {
    var key := Js.LowerCase(GetExtension(url));
    if key in MimeTypes then Str(MimeTypes[key])
    else if key in ObjectPrototypeMembers then Inherited(key)
    else Str("")
  }

  /** Every inherited member name but "constructor" and "__proto__" has an upper-case letter. */
  lemma InheritedMembersWithUpper()
    ensures forall m :: m in ObjectPrototypeMembers && m != "constructor" && m != "__proto__" ==> !Js.NoUpper(m)
  {
    assert "hasOwnProperty"[3] == 'O';
    assert "isPrototypeOf"[2] == 'P';
    assert "propertyIsEnumerable"[8] == 'I';
    assert "toLocaleString"[2] == 'L';
    assert "toString"[2] == 'S';
    assert "valueOf"[5] == 'O';
    assert "__defineGetter__"[8] == 'G';
    assert "__defineSetter__"[8] == 'S';
    assert "__lookupGetter__"[8] == 'G';
    assert "__lookupSetter__"[8] == 'S';
  }

  /** Of the inherited member names, only two are free of upper-case letters. */
  lemma LowerInheritedMembers(key: string)
    requires Js.NoUpper(key) && key in ObjectPrototypeMembers
    ensures key == "constructor" || key == "__proto__"
  {
    InheritedMembersWithUpper();
  }

  /**
   * As written, `getMimeType` returns a non-string for exactly the two
   * extensions that lower-case to an inherited member name: "constructor"
   * gives the function `Object`, "__proto__" gives `Object.prototype`.
   */
  lemma MimeTypeAsWrittenLeaks(url: string)
    ensures GetMimeTypeAsWritten(url).Inherited?
        <==> Js.LowerCase(GetExtension(url)) in {"constructor", "__proto__"}
  {
    var key := Js.LowerCase(GetExtension(url));
    if key in ObjectPrototypeMembers {
      LowerInheritedMembers(key);
    }
  }

  lemma ExtensionConstructor(stem: string)
    ensures GetExtension(stem + ".constructor") == "constructor"
  {
    ExtensionOfName(stem, "constructor");
    DotConstructor(stem);
  }

  lemma DotConstructor(stem: string)
    ensures stem + ".constructor" == stem + "." + "constructor"
  {
    assert "." + "constructor" == ".constructor";
    assert stem + "." + "constructor" == stem + ("." + "constructor");
  }

  /** The input that shows it: any file name ending in ".constructor". */
  lemma MimeTypeAsWrittenExample(stem: string)
    ensures GetMimeTypeAsWritten(stem + ".constructor") == Inherited("constructor")
  {
    ExtensionConstructor(stem);
    LowerConstructor();
    AsWrittenOfConstructor(stem + ".constructor");
  }

  lemma LowerConstructor()
    ensures Js.LowerCase("constructor") == "constructor"
  {
    LowerKey("constructor");
  }

  /** A URL whose lowered extension is "constructor" reads the inherited member. */
  lemma AsWrittenOfConstructor(url: string)
    requires Js.LowerCase(GetExtension(url)) == "constructor"
    ensures GetMimeTypeAsWritten(url) == Inherited("constructor")
  {
    ConstructorIsInherited();
  }

  lemma ConstructorIsInherited()
    ensures "constructor" !in MimeTypes && "constructor" in ObjectPrototypeMembers
  {
  }

  /**
   * `getMimeType` as evidently intended: only the table's own entries
   * count, and every other extension gives "".
   */
  function GetMimeType(url: string): (mime: string)
    ensures mime != "" <==> Js.LowerCase(GetExtension(url)) in MimeTypes
    ensures mime != "" ==> mime == MimeTypes[Js.LowerCase(GetExtension(url))]
  {
    var key := Js.LowerCase(GetExtension(url));
    TableHasNoEmptyType();
    if key in MimeTypes then MimeTypes[key] else ""
  }

  /** Every entry of the table is a non-empty type, so `||` never falls through on an own key. */
  lemma TableHasNoEmptyType()
    ensures forall key :: key in MimeTypes ==> MimeTypes[key] != ""
  {
  }

  /** A key with no upper-case letter is its own lower case. */
  lemma LowerKey(key: string)
    requires Js.NoUpper(key)
    ensures Js.LowerCase(key) == key
  {
  }

  /** Any spelling of a lower-case key, in any letter case, lowers to that key. */
  lemma LowerSpelling(ext: string, key: string)
    requires Js.NoUpper(key)
    ensures Js.EqualIgnoringCase(ext, key) ==> Js.LowerCase(ext) == key
  {
    Js.LowerCaseIgnoresCase(ext, key);
  }

  /** `jpg` and `jpeg`, in any letter case, give image/jpeg. */
  lemma MimeTypeOfJpeg(stem: string, ext: string)
    requires '.' !in ext && '/' !in ext
    requires Js.EqualIgnoringCase(ext, "jpg") || Js.EqualIgnoringCase(ext, "jpeg")
    ensures GetMimeType(stem + "." + ext) == Jpeg
  {
    ExtensionOfName(stem, ext);
    LowerSpelling(ext, "jpg");
    LowerSpelling(ext, "jpeg");
  }

  /** `woff` and `woff2`, in any letter case, give application/font-woff. */
  lemma MimeTypeOfWoff(stem: string, ext: string)
    requires '.' !in ext && '/' !in ext
    requires Js.EqualIgnoringCase(ext, "woff") || Js.EqualIgnoringCase(ext, "woff2")
    ensures GetMimeType(stem + "." + ext) == Woff
  {
    ExtensionOfName(stem, ext);
    LowerSpelling(ext, "woff");
    LowerSpelling(ext, "woff2");
  }

  /** An extension outside the table, or no extension at all, gives "". */
  lemma MimeTypeOfUnknown(stem: string, ext: string)
    requires '.' !in ext && '/' !in ext
    requires Js.LowerCase(ext) !in MimeTypes
    ensures GetMimeType(stem + "." + ext) == ""
  {
    ExtensionOfName(stem, ext);
  }
}

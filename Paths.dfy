/** File-name classification of the asset loader (`AssetManager.cpp` lines
    475-503), over the rules of `std::filesystem::path`: the file name is what
    follows the last '/', the extension starts at the last '.' of the file name
    unless that '.' is its first character (or the name is "." or ".."), and the
    stem is the file name without its extension. */
module Paths {

  function LastIndexOf(s: string, c: char): (r: int)
    ensures -1 <= r < |s|
    ensures r >= 0 ==> s[r] == c
    ensures forall j :: r < j < |s| ==> s[j] != c
  {
    if s == [] then -1
    else if s[|s| - 1] == c then |s| - 1
    else LastIndexOf(s[..|s| - 1], c)
  }

  function FileName(path: string): string
  {
    path[LastIndexOf(path, '/') + 1..]
  }

  /** The position of the '.' that starts the extension, or -1 when there is none. */
  function ExtensionDot(name: string): (k: int)
    ensures k == -1 || 0 < k < |name|
    ensures k >= 0 ==> name[k] == '.' && forall j :: k < j < |name| ==> name[j] != '.'
    ensures k == -1 <==> name == "." || name == ".." || forall j :: 0 < j < |name| ==> name[j] != '.'
  {
    if name == "." || name == ".." then -1
    else
      var k := LastIndexOf(name, '.');
      if k <= 0 then -1 else k
  }

  function Extension(name: string): string
  {
    var k := ExtensionDot(name);
    if k < 0 then "" else name[k..]
  }

  function Stem(name: string): string
  {
    var k := ExtensionDot(name);
    if k < 0 then name else name[..k]
  }

  predicate IsXml(path: string)
  {
    Extension(FileName(path)) == ".xml"
  }

  predicate IsJson(path: string)
  {
    Extension(FileName(path)) == ".json"
  }

  /** `is_of_asset_type`: a regular file `<name>.<kind>.<json|xml>`. */
  predicate IsOfAssetType(path: string, regular: bool, kind: string)
  {
    regular && (IsXml(path) || IsJson(path)) && Extension(Stem(FileName(path))) == "." + kind
  }

  predicate IsTextureFile(path: string, regular: bool)
  {
    regular && Extension(FileName(path)) == ".png"
  }

  /** `get_asset_name_from_filename`: both extensions stripped. */
  function AssetNameFromFilename(path: string): string
  {
    Stem(Stem(FileName(path)))
  }

  /** `get_texture_name`: the file name without its extension. */
  function TextureName(path: string): string
  {
    Stem(FileName(path))
  }

  lemma StemPlusExtension(name: string)
    ensures Stem(name) + Extension(name) == name
  {
    var k := ExtensionDot(name);
    if k >= 0 {
      assert name[..k] + name[k..] == name;
    }
  }

  lemma LastIndexAfter(a: string, c: char, b: string)
    requires c !in b
    ensures LastIndexOf(a + [c] + b, c) == |a|
  {
    var s := a + [c] + b;
    var r := LastIndexOf(s, c);
    assert s[|a|] == c;
  }

  /** Every asset file is `<asset name>.<kind><ext>` with ext .json or .xml. */
  lemma AssetTypeDecomposes(path: string, regular: bool, kind: string)
    requires IsOfAssetType(path, regular, kind)
    ensures regular
    ensures Extension(FileName(path)) in {".json", ".xml"}
    ensures FileName(path) == AssetNameFromFilename(path) + "." + kind + Extension(FileName(path))
  {
    var name := FileName(path);
    StemPlusExtension(name);
    StemPlusExtension(Stem(name));
  }

  lemma FileNameAfter(dir: string, name: string)
    requires '/' !in name
    ensures FileName(dir + "/" + name) == name
  {
    assert dir + "/" + name == dir + ['/'] + name;
    LastIndexAfter(dir, '/', name);
  }

  /** `a.b`, with a non-empty and no dot in b, has extension `.b` and stem `a`. */
  lemma DottedName(a: string, b: string)
    requires a != [] && b != [] && '.' !in b
    ensures Extension(a + "." + b) == "." + b && Stem(a + "." + b) == a
  {
    var name := a + "." + b;
    assert name == a + ['.'] + b;
    LastIndexAfter(a, '.', b);
    assert name[|a|..] == "." + b && name[..|a|] == a;
  }

  lemma AssetFileParts(dir: string, base: string, kind: string, ext: string)
    requires base != [] && '/' !in base
    requires kind != [] && '/' !in kind && '.' !in kind
    requires ext == "json" || ext == "xml"
    ensures var name := base + "." + kind + "." + ext;
      FileName(dir + "/" + base + "." + kind + "." + ext) == name &&
      Extension(name) == "." + ext && Stem(name) == base + "." + kind &&
      Extension(base + "." + kind) == "." + kind && Stem(base + "." + kind) == base
  {
    var stem := base + "." + kind;
    var name := stem + "." + ext;
    assert dir + "/" + base + "." + kind + "." + ext == dir + "/" + name;
    assert '/' !in name by {
      assert '/' !in stem;
    }
    FileNameAfter(dir, name);
    DottedName(stem, ext);
    DottedName(base, kind);
  }

  /** A file `dir/base.kind.ext` is classified as `kind` and no other kind, and
      its key is `base` (which may itself contain dots). */
  lemma AssetFileClassified(dir: string, base: string, kind: string, ext: string, other: string)
    requires base != [] && '/' !in base
    requires kind != [] && '/' !in kind && '.' !in kind
    requires ext == "json" || ext == "xml"
    requires other != kind
    ensures var path := dir + "/" + base + "." + kind + "." + ext;
      IsOfAssetType(path, true, kind) && !IsOfAssetType(path, true, other) &&
      AssetNameFromFilename(path) == base && !IsTextureFile(path, true)
  {
    AssetFileParts(dir, base, kind, ext);
    assert ("." + other)[1..] == other && ("." + kind)[1..] == kind;
  }

  /** Engine, weapon and ship keys depend only on the file name: two files in
      different directories with the same name collide. */
  lemma KeyIgnoresDirectory(dir1: string, dir2: string, name: string)
    requires '/' !in name
    ensures AssetNameFromFilename(dir1 + "/" + name) == AssetNameFromFilename(dir2 + "/" + name)
    ensures TextureName(dir1 + "/" + name) == TextureName(dir2 + "/" + name)
  {
    FileNameAfter(dir1, name);
    FileNameAfter(dir2, name);
  }

  /** `.kind` has no extension: its only dot is its first character. */
  lemma HiddenStem(kind: string)
    requires '.' !in kind
    ensures Extension("." + kind) == ""
  {
    assert "." + kind == [] + ['.'] + kind;
    LastIndexAfter([], '.', kind);
  }

  lemma HiddenFileName(dir: string, kind: string, ext: string)
    requires '/' !in kind && (ext == "json" || ext == "xml")
    ensures FileName(dir + "/." + kind + "." + ext) == "." + kind + "." + ext
  {
    var name := "." + kind + "." + ext;
    assert dir + "/." + kind + "." + ext == dir + "/" + name;
    assert '/' !in "." + kind;
    FileNameAfter(dir, name);
  }

  /** A hidden file `.kind.json` or `.kind.xml` has the stem `.kind`, whose
      only dot is its first character and so starts no extension: the file is
      of no asset type at all. */
  lemma LeadingDotIsNotAKind(dir: string, kind: string, ext: string, other: string, regular: bool)
    requires '/' !in kind && '.' !in kind
    requires ext == "json" || ext == "xml"
    ensures !IsOfAssetType(dir + "/." + kind + "." + ext, regular, other)
  {
    HiddenFileName(dir, kind, ext);
    DottedName("." + kind, ext);
    HiddenStem(kind);
  }
}

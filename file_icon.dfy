/**
 * `getFileIcon`: the icon shown beside an attachment, chosen by the
 * lower-cased text after the last dot of the file name. The icon is
 * modelled by its category.
 */
module FileIcon {
  import opened Wrappers
  import opened Text

  /** `Other` is the grey generic icon of the `default` branch. */
  datatype Category = Pdf | Image | Archive | Word | Excel | Other

  /** The extensions the `switch` lists. */
  const Listed: set<string> :=
    {"pdf", "jpg", "jpeg", "png", "gif", "zip", "rar", "doc", "docx", "xls", "xlsx"}

  /** The `switch` on the lower-cased extension. */
  function CategoryOf(ext: string): (c: Category)
    ensures c == Other <==> ext !in Listed
  {
    if ext == "pdf" then Pdf
    else if ext == "jpg" || ext == "jpeg" || ext == "png" || ext == "gif" then Image
    else if ext == "zip" || ext == "rar" then Archive
    else if ext == "doc" || ext == "docx" then Word
    else if ext == "xls" || ext == "xlsx" then Excel
    else Other
  }

  /** No icon for a null, absent or empty name; otherwise the category of its extension. */
  function GetFileIcon(fileName: Option<string>): (r: Option<Category>)
    ensures r.None? <==> fileName == None || fileName == Some("")
  {
    match fileName
    case None => None
    case Some(name) => if name == "" then None else Some(CategoryOf(ToLower(Extension(name))))
  }

  /** An extension outside the listed ones gets the default icon, and a listed one never does. */
  lemma {:induction false} UnlistedIsOther(name: string)
    requires name != ""
    ensures GetFileIcon(Some(name)) == Some(Other) <==> ToLower(Extension(name)) !in Listed
  {
  }

  /** Names that differ only in the case of their letters get the same icon. */
  lemma {:induction false} IconIgnoresCase(a: string, b: string)
    requires ToLower(a) == ToLower(b)
    ensures GetFileIcon(Some(a)) == GetFileIcon(Some(b))
  {
    ExtensionToLower(a);
    ExtensionToLower(b);
  }

  /** Only the text after the last dot matters: any prefix ending in a dot can be put in front. */
  lemma IconUsesLastExtension(prefix: string, ext: string)
    requires ext != "" && '.' !in ext
    ensures GetFileIcon(Some(prefix + "." + ext)) == GetFileIcon(Some(ext))
  {
    var name := prefix + "." + ext;
    assert name[|prefix|] == '.' && name[|prefix| + 1..] == ext;
    ExtensionOfSuffix(name, ext);
    ExtensionOfSuffix(ext, ext);
  }

  /** A dot-free suffix that is the whole name or follows a dot is the extension. */
  lemma ExtensionOfSuffix(name: string, ext: string)
    requires '.' !in ext && |ext| <= |name| && name[|name| - |ext|..] == ext
    requires |ext| == |name| || name[|name| - |ext| - 1] == '.'
    ensures Extension(name) == ext
  {
    ExtensionIsLastDotSuffix(name);
  }

  lemma ExampleMixedCase()
    ensures GetFileIcon(Some("photo.JPeG")) == Some(Image)
  {
    LowerJpeg();
    IconOfSuffix("photo.JPeG", "JPeG");
  }

  lemma LowerJpeg()
    ensures ToLower("JPeG") == "jpeg"
  {
    var l := ToLower("JPeG");
    assert l[0] == 'j' && l[1] == 'p' && l[2] == 'e' && l[3] == 'g';
  }

  /** A name without a dot is its own extension. */
  lemma NoDotIsWholeName(name: string)
    requires name != "" && '.' !in name
    ensures GetFileIcon(Some(name)) == Some(CategoryOf(ToLower(name)))
  {
    IconOfSuffix(name, name);
  }

  /** A name ending in a dot has an empty extension and gets the default icon. */
  lemma TrailingDotIsOther(prefix: string)
    ensures GetFileIcon(Some(prefix + ".")) == Some(Other)
  {
    IconOfSuffix(prefix + ".", "");
  }

  lemma IconOfSuffix(name: string, ext: string)
    requires name != ""
    requires '.' !in ext && |ext| <= |name| && name[|name| - |ext|..] == ext
    requires |ext| == |name| || name[|name| - |ext| - 1] == '.'
    ensures GetFileIcon(Some(name)) == Some(CategoryOf(ToLower(ext)))
  {
    ExtensionOfSuffix(name, ext);
  }
}

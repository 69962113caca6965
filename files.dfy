/**
 * The file helpers of src/data/files.ts: the bundled-content lookup with its placeholder,
 * and the language and icon tables keyed by a file's extension. The bundled file bodies
 * are opaque here: the lookup takes the content table as a parameter.
 */
module Files {
  import opened Text

  /** `filename.split('.').pop()?.toLowerCase()`: the text after the last dot, lower-cased;
      a name without a dot is its own extension. */
  function Extension(name: string): (r: string)
    ensures '.' !in r
    ensures |r| <= |name|
  {
    LastPartIsSuffix(name, '.');
    var e := Lower(LastPart(name, '.'));
    assert forall i :: 0 <= i < |e| ==> e[i] == LowerChar(LastPart(name, '.')[i]) != '.';
    e
  }

  /** The extension only depends on what follows the last dot. */
  lemma ExtensionOfLastSegment(p: string, e: string)
    requires '.' !in e
    ensures Extension(p + "." + e) == Lower(e)
  {
    LastPartAfterSeparator(p, e, '.');
  }

  const LanguageMap: map<string, string> := map[
    "md" := "Markdown",
    "json" := "JSON",
    "ts" := "TypeScript",
    "tsx" := "TypeScript React",
    "js" := "JavaScript",
    "jsx" := "JavaScript React",
    "css" := "CSS",
    "gitignore" := "Git Ignore"
  ]

  const IconMap: map<string, string> := map[
    "md" := "icon-markdown",
    "json" := "icon-json",
    "ts" := "icon-typescript",
    "tsx" := "icon-react",
    "js" := "icon-javascript",
    "css" := "icon-css"
  ]

  const PlainText: string := "Plain Text"
  const DefaultIcon: string := "icon-config"

  /** `getFileLanguage`: the language named for the extension, `Plain Text` when the
      extension is not in the table. */
  function FileLanguage(name: string): (r: string)
    ensures Extension(name) in LanguageMap ==> r == LanguageMap[Extension(name)] && r != PlainText
    ensures Extension(name) !in LanguageMap ==> r == PlainText
  {
    var ext := Extension(name);
    if ext in LanguageMap then LanguageMap[ext] else PlainText
  }

  /** `getFileIcon`: the icon class for the extension, `icon-config` for any other. */
  function FileIcon(name: string): (r: string)
    ensures Extension(name) in IconMap ==> r == IconMap[Extension(name)] && r != DefaultIcon
    ensures Extension(name) !in IconMap ==> r == DefaultIcon
  {
    var ext := Extension(name);
    if ext in IconMap then IconMap[ext] else DefaultIcon
  }

  /** Every name with an icon of its own also has a language of its own. */
  lemma IconImpliesLanguage(name: string)
    ensures FileIcon(name) != DefaultIcon ==> FileLanguage(name) != PlainText
  {
  }

  /** Two names ending in the same extension after their last dot, in any letter case, get
      the same language and icon. */
  lemma LanguageByLastSegment(p: string, q: string, e: string, f: string)
    requires '.' !in e && '.' !in f && Lower(e) == Lower(f)
    ensures FileLanguage(p + "." + e) == FileLanguage(q + "." + f)
    ensures FileIcon(p + "." + e) == FileIcon(q + "." + f)
  {
    ExtensionOfLastSegment(p, e);
    ExtensionOfLastSegment(q, f);
  }

  /** The extension of `p.e` for a lower-case final segment `e`. */
  lemma ExtensionIs(name: string, p: string, e: string)
    requires '.' !in e && name == p + "." + e
    requires forall i :: 0 <= i < |e| ==> !('A' <= e[i] <= 'Z')
    ensures Extension(name) == e
  {
    ExtensionOfLastSegment(p, e);
    LowerNoUpper(e);
  }

  lemma LowerOfTS(e: string)
    requires e == "TS"
    ensures Lower(e) == "ts"
  {
    assert forall i :: 0 <= i < |e| ==> Lower(e)[i] == LowerChar(e[i]) == "ts"[i];
  }

  lemma ExtensionOfTestTS(name: string)
    requires name == "x.test.TS"
    ensures Extension(name) == "ts"
  {
    assert name == "x.test" + "." + "TS";
    ExtensionOfLastSegment("x.test", "TS");
    LowerOfTS("TS");
  }

  /** Only the last extension counts, in any letter case. */
  lemma LanguageOfDoubleExtension(name: string)
    requires name == "x.test.TS"
    ensures FileLanguage(name) == "TypeScript"
  {
    ExtensionOfTestTS(name);
  }

  /** A dot file is named by what follows its dot. */
  lemma LanguageOfDotFile(name: string)
    requires name == ".gitignore"
    ensures FileLanguage(name) == "Git Ignore"
    ensures FileIcon(name) == DefaultIcon
  {
    var e := "gitignore";
    assert name == "" + "." + e;
    assert '.' !in e;
    assert forall i :: 0 <= i < |e| ==> !('A' <= e[i] <= 'Z');
    ExtensionIs(name, "", e);
  }

  /** A name without a dot is its own extension: `Makefile` is plain text, `md` is Markdown. */
  lemma LanguageWithoutDot()
    ensures FileLanguage("md") == "Markdown"
  {
    ExtensionIsWholeName("md");
  }

  /** A dot-less name outside the table, whatever its letter case, is plain text. */
  lemma LanguageOfMakefile(name: string)
    requires name == "Makefile"
    ensures FileLanguage(name) == PlainText
  {
    ExtensionOfMakefile(name);
  }

  lemma LowerOfMakefile(s: string)
    requires s == "Makefile"
    ensures Lower(s) == "makefile"
  {
    assert forall i :: 0 <= i < |s| ==> Lower(s)[i] == LowerChar(s[i]) == "makefile"[i];
  }

  lemma ExtensionOfMakefile(name: string)
    requires name == "Makefile"
    ensures Extension(name) == "makefile"
  {
    assert '.' !in name;
    ExtensionWithoutDot(name);
    LowerOfMakefile(name);
  }

  lemma ExtensionIsWholeName(name: string)
    requires '.' !in name
    requires forall i :: 0 <= i < |name| ==> !('A' <= name[i] <= 'Z')
    ensures Extension(name) == name
  {
    ExtensionWithoutDot(name);
    LowerNoUpper(name);
  }

  lemma ExtensionWithoutDot(name: string)
    requires '.' !in name
    ensures Extension(name) == Lower(name)
  {
    SplitNoSeparator(name, '.');
  }

  /** YAML has no entry in the language table. */
  lemma LanguageOfYaml(name: string)
    requires name == "config.yaml"
    ensures FileLanguage(name) == PlainText
  {
    var e := "yaml";
    assert name == "config" + "." + e;
    assert '.' !in e;
    assert forall i :: 0 <= i < |e| ==> !('A' <= e[i] <= 'Z');
    ExtensionIs(name, "config", e);
  }

  /** `// File: <name>` and `// Content not available` on two lines. */
  function Placeholder(name: string): string
  {
    "// File: " + name + "\n// Content not available"
  }

  lemma PlaceholderInjective(a: string, b: string)
    requires Placeholder(a) == Placeholder(b)
    ensures a == b
  {
    var pre := "// File: ";
    var post := "\n// Content not available";
    assert Placeholder(a) == pre + a + post;
    assert Placeholder(b) == pre + b + post;
    assert |a| == |b|;
    assert forall i :: 0 <= i < |a| ==> a[i] == Placeholder(a)[|pre| + i];
    assert forall i :: 0 <= i < |b| ==> b[i] == Placeholder(b)[|pre| + i];
  }

  /** `getFileContent`: the bundled text for the name, or the placeholder when there is none.
      The lookup uses `||`, so a bundled entry with empty text also yields the placeholder,
      and the result is never empty. */
  function GetFileContent(bundled: map<string, string>, name: string): (r: string)
    ensures r != ""
    ensures name in bundled && bundled[name] != "" ==> r == bundled[name]
    ensures !(name in bundled && bundled[name] != "") ==> r == Placeholder(name)
  {
    if name in bundled && bundled[name] != "" then bundled[name] else Placeholder(name)
  }
}

/**
 * The file importer (src/app/file-import/file-import.ts): on a change of
 * the file input it strips the extension from the chosen file's name,
 * checks the base name against an optional required one without regard to
 * case, and either records the file and emits its text or records a
 * validation error and clears the input.
 */
module FileImport {
  import opened Optional

  const DEFAULT_VALIDATION_MESSAGE := "Invalid file name."

  /** The characters the extension pattern `[^\.\/]` excludes. */
  predicate IsSeparator(c: char) {
    c == '.' || c == '/'
  }

  /** What `\.[^\.\/]+$` matches after the dot: one or more characters, none a dot or a slash. */
  predicate IsExtension(ext: string) {
    |ext| > 0 && forall j :: 0 <= j < |ext| ==> !IsSeparator(ext[j])
  }

  /** The position of the last dot or slash before `n`, or -1. */
  function LastSeparator(s: string, n: nat): (i: int)
    requires n <= |s|
    ensures -1 <= i < n
    ensures i >= 0 ==> IsSeparator(s[i])
    ensures forall j :: i < j < n ==> !IsSeparator(s[j])
    decreases n
  {
    if n == 0 then -1
    else if IsSeparator(s[n - 1]) then n - 1
    else LastSeparator(s, n - 1)
  }

  /** The dot at `k` starts an extension the pattern strips. */
  predicate ExtensionAt(name: string, k: int) {
    0 <= k < |name| && name[k] == '.' && IsExtension(name[k + 1..])
  }

  lemma LastDotStartsExtension(name: string)
    requires var i := LastSeparator(name, |name|); i >= 0 && name[i] == '.' && i + 1 < |name|
    ensures ExtensionAt(name, LastSeparator(name, |name|))
  {
    var i := LastSeparator(name, |name|);
    var ext := name[i + 1..];
    forall j | 0 <= j < |ext| ensures !IsSeparator(ext[j]) {
      assert ext[j] == name[i + 1 + j];
    }
  }

  lemma ExtensionOnlyAtLastSeparator(name: string, k: int)
    requires ExtensionAt(name, k)
    ensures k == LastSeparator(name, |name|)
  {
  }

  /**
   * `name.replace(/\.[^\.\/]+$/, '')`: the name without its final extension.
   * The pattern can match only at the last dot, so the result is unique.
   */
  function BaseName(name: string): (base: string)
    ensures forall k :: ExtensionAt(name, k) ==> base == name[..k]
    ensures (forall k :: !ExtensionAt(name, k)) ==> base == name
    ensures base == name || (ExtensionAt(name, |base|) && base == name[..|base|])
  {
    var i := LastSeparator(name, |name|);
    if i >= 0 && name[i] == '.' && i + 1 < |name| then
      LastDotStartsExtension(name);
      assert forall k :: ExtensionAt(name, k) ==> k == i by {
        forall k | ExtensionAt(name, k) ensures k == i {
          ExtensionOnlyAtLastSeparator(name, k);
        }
      }
      name[..i]
    else
      assert forall k :: !ExtensionAt(name, k) by {
        forall k ensures !ExtensionAt(name, k) {
          if ExtensionAt(name, k) {
            ExtensionOnlyAtLastSeparator(name, k);
          }
        }
      }
      name
  }

  /** `toLowerCase()` on one character, for the ASCII letters. */
  function LowerChar(c: char): char {
    if 'A' <= c <= 'Z' then (c as int - 'A' as int + 'a' as int) as char else c
  }

  /** `toLowerCase()`. */
  function ToLower(s: string): (r: string)
    ensures |r| == |s|
    ensures forall i :: 0 <= i < |s| ==> r[i] == LowerChar(s[i])
  {
    seq(|s|, i requires 0 <= i < |s| => LowerChar(s[i]))
  }

  /** Whether a file of this name passes the check against an optional required base name. */
  function Accepts(requiredBasename: Option<string>, name: string): (ok: bool)
    ensures requiredBasename.None? || requiredBasename.value == "" ==> ok
    ensures requiredBasename.Some? && requiredBasename.value != "" ==>
      (ok <==> ToLower(BaseName(name)) == ToLower(requiredBasename.value))
  {
    !(requiredBasename.Some? && requiredBasename.value != "" &&
      ToLower(BaseName(name)) != ToLower(requiredBasename.value))
  }

  /** `this.validationMessage || \`File must be named "${this.requiredBasename}"\``. */
  function RejectionMessage(validationMessage: string, requiredBasename: string): (m: string)
    ensures validationMessage != "" ==> m == validationMessage
    ensures validationMessage == "" ==> m == "File must be named \"" + requiredBasename + "\""
  {
    if validationMessage != "" then validationMessage else "File must be named \"" + requiredBasename + "\""
  }

  /**
   * A file named after the required base name accepts any extension, in any
   * case of either part: `Swagger.yaml` and `SWAGGER.json` both pass for 'swagger'.
   */
  lemma AcceptsAnyExtension(required: string, given: string, ext: string)
    requires required != "" && ToLower(given) == ToLower(required)
    requires IsExtension(ext)
    ensures Accepts(Some(required), given + "." + ext)
  {
    var name := given + "." + ext;
    assert name[|given| + 1..] == ext;
    assert ExtensionAt(name, |given|);
    assert name[..|given|] == given;
  }

  /** A name without any extension is compared whole, dots that end no extension included. */
  lemma NoExtensionComparedWhole(required: string, name: string)
    requires required != ""
    requires forall k :: !ExtensionAt(name, k)
    ensures Accepts(Some(required), name) <==> ToLower(name) == ToLower(required)
  {
  }

  /** Only the case-folded required name matters: 'Swagger' and 'swagger' accept the same files. */
  lemma AcceptsIgnoresCaseOfRequirement(r1: string, r2: string, name: string)
    requires ToLower(r1) == ToLower(r2)
    ensures Accepts(Some(r1), name) == Accepts(Some(r2), name)
  {
    assert r1 == "" <==> r2 == "";
  }

  /**
   * "Swagger.JSON" passes for 'swagger'; "swagger." and "noext" have no
   * extension and keep their names, so "swagger." fails; "a.tar.gz" loses
   * only its last extension.
   */
  lemma SwaggerExamples()
    ensures Accepts(Some("swagger"), "Swagger.JSON")
    ensures BaseName("swagger.") == "swagger."
    ensures BaseName("noext") == "noext"
    ensures !Accepts(Some("swagger"), "swagger.")
    ensures BaseName("a.tar.gz") == "a.tar"
  {
    var n := "Swagger.JSON";
    assert ExtensionAt(n, 7);
    assert BaseName(n) == "Swagger";
    assert ToLower("Swagger") == "swagger";
    var d := "swagger.";
    assert forall k :: !ExtensionAt(d, k);
    assert ToLower(d) != ToLower("swagger") by { assert |ToLower(d)| != |ToLower("swagger")|; }
    var t := "a.tar.gz";
    assert ExtensionAt(t, 5);
  }

  /** A chosen file: its name and the text a `FileReader` would produce for it. */
  datatype SelectedFile = SelectedFile(name: string, content: string)

  /** The `<input type="file">` element a change event targets. */
  class FileInput {
    var files: seq<SelectedFile>
    var value: string

    constructor (files: seq<SelectedFile>, value: string)
      ensures this.files == files && this.value == value
    {
      this.files := files;
      this.value := value;
    }
  }

  class FileImportComponent {
    var requiredBasename: Option<string>
    var validationMessage: string
    var selectedFile: string
    var validationError: string
    /** The texts passed to `fileImported.emit`, oldest first. */
    var emitted: seq<string>

    /** The two inputs as bound by the parent; an unbound `validationMessage` keeps its default. */
    constructor (requiredBasename: Option<string>, validationMessage: Option<string>)
      ensures this.requiredBasename == requiredBasename
      ensures this.validationMessage == validationMessage.GetOr(DEFAULT_VALIDATION_MESSAGE)
      ensures selectedFile == "" && validationError == "" && emitted == []
    {
      this.requiredBasename := requiredBasename;
      this.validationMessage := validationMessage.GetOr(DEFAULT_VALIDATION_MESSAGE);
      selectedFile := "";
      validationError := "";
      emitted := [];
    }

    /** `onFileChange(event)` with `event.target` = `target`. */
    method OnFileChange(target: FileInput)
      modifies this`selectedFile, this`validationError, this`emitted, target`value
      ensures target.files == [] ==>
        && selectedFile == old(selectedFile) && validationError == old(validationError)
        && emitted == old(emitted) && target.value == old(target.value)
      ensures target.files != [] && Accepts(requiredBasename, target.files[0].name) ==>
        && selectedFile == target.files[0].name && validationError == ""
        && emitted == old(emitted) + [target.files[0].content] && target.value == old(target.value)
      ensures target.files != [] && !Accepts(requiredBasename, target.files[0].name) ==>
        && selectedFile == "" && validationError == RejectionMessage(validationMessage, requiredBasename.value)
        && emitted == old(emitted) && target.value == ""
    {
      if target.files != [] {
        var file := target.files[0];
        validationError := "";
        var name := file.name;
        var base := BaseName(name);
        if requiredBasename.Some? && requiredBasename.value != "" && ToLower(base) != ToLower(requiredBasename.value) {
          selectedFile := "";
          validationError := if validationMessage != "" then validationMessage
                             else "File must be named \"" + requiredBasename.value + "\"";
          target.value := "";
          return;
        }
        selectedFile := name;
        emitted := emitted + [file.content];
      }
    }
  }
}

/** The options check of the schema generator's command
    (pkg/schema/handler/validator.go): the output file must be named, and
    its extension must be one of "yaml" and "yml", ignoring case and
    surrounding space. The validation library is reduced to the two tags
    the options carry. */
module SchemaHandler {
  import opened Wrappers
  import opened Strings

  /** The field a tag is checked on: a string, or a field of another kind. */
  datatype Field = StringField(s: string) | OtherField

  /** The extension of a file name: the text after the last dot of the
      trimmed name, lower-cased; "" when there is none. */
  function FileExtension(name: string): string {
    Lower(TrimPrefix(Ext(TrimSpace(name)), "."))
  }

  /** An entry of an `extension` parameter as it is compared: trimmed and
      lower-cased. */
  function Normalise(entry: string): string {
    Lower(TrimSpace(entry))
  }

  /** `ext` is one of the entries of a parameter split on single spaces. */
  predicate Listed(ext: string, entries: seq<string>) {
    exists k :: 0 <= k < |entries| && Normalise(entries[k]) == ext
  }

  /** The `extension` tag holds: a string field whose trimmed value is not
      blank and whose extension is non-empty and one of the allowed ones. */
  predicate ExtensionAllowed(field: Field, param: string) {
    && field.StringField?
    && TrimSpace(field.s) != ""
    && AllowedExtension(FileExtension(field.s), param)
  }

  /** A non-empty extension listed in the parameter. */
  predicate AllowedExtension(ext: string, param: string) {
    ext != "" && Listed(ext, SplitOn(param, ' '))
  }

  /** `FileExtensionValidator`: search the allowed list for the field's
      extension, stopping at the first entry equal to it. */
  method FileExtensionValidator(field: Field, param: string) returns (ok: bool)
    ensures ok <==> ExtensionAllowed(field, param)
  {
    if !field.StringField? {
      return false;
    }
    var fileName := TrimSpace(field.s);
    if fileName == "" {
      return false;
    }
    var ext := Lower(TrimPrefix(Ext(fileName), "."));
    assert ext == FileExtension(field.s);
    if ext == "" {
      return false;
    }
    var allowedList := SplitOn(param, ' ');
    ok := ContainsMapped(allowedList, Normalise, ext);
  }

  /** The loop of `FileExtensionValidator`: whether some entry of `xs`,
      normalised by `f`, equals `x`; it stops at the first such entry. */
  method ContainsMapped<T, U(==)>(xs: seq<T>, f: T -> U, x: U) returns (found: bool)
    ensures found <==> exists k :: 0 <= k < |xs| && f(xs[k]) == x
  {
    var i := 0;
    while i < |xs|
      invariant 0 <= i <= |xs|
      invariant forall k :: 0 <= k < i ==> f(xs[k]) != x
    {
      if f(xs[i]) == x {
        return true;
      }
      i := i + 1;
    }
    return false;
  }

  /** A field of another kind, or a blank name, never passes. */
  lemma OnlyNamedStringsPass(param: string, blank: string)
    requires TrimSpace(blank) == ""
    ensures !ExtensionAllowed(OtherField, param)
    ensures !ExtensionAllowed(StringField(blank), param)
  {
  }

  /** Listing an extension twice, or adding extensions, never rejects a
      name the list accepted. */
  lemma {:induction false} MoreExtensionsAcceptMore(ext: string, param: string, more: string)
    requires AllowedExtension(ext, param)
    ensures AllowedExtension(ext, param + " " + more)
  {
    var parts := SplitOn(param, ' ');
    var i :| 0 <= i < |parts| && Normalise(parts[i]) == ext;
    SplitOnSeparator(param, more);
    assert SplitOn(param + " " + more, ' ')[i] == parts[i];
  }

  /** Splitting `a + " " + b` splits `a` and `b` apart: the parts of `a`
      come first, unchanged. */
  lemma {:induction false} SplitOnSeparator(a: string, b: string)
    ensures |SplitOn(a + " " + b, ' ')| > |SplitOn(a, ' ')|
    ensures forall i :: 0 <= i < |SplitOn(a, ' ')| ==> SplitOn(a + " " + b, ' ')[i] == SplitOn(a, ' ')[i]
  {
    if |a| == 0 {
      assert a + " " + b == " " + b;
      assert (" " + b)[1..] == b;
    } else {
      assert (a + " " + b)[0] == a[0];
      assert (a + " " + b)[1..] == a[1..] + " " + b;
      SplitOnSeparator(a[1..], b);
    }
  }

  /** A parameter of two space-free entries, each already normalised,
      allows exactly those two. */
  lemma {:induction false} TwoEntries(first: string, second: string, ext: string)
    requires ' ' !in first && ' ' !in second
    requires Normalise(first) == first && Normalise(second) == second
    ensures AllowedExtension(ext, first + " " + second) <==> ext != "" && (ext == first || ext == second)
  {
    var entries := SplitOn(first + " " + second, ' ');
    assert entries == [first, second] by {
      assert first + " " + second == first + [' '] + second;
      SplitOnTwo(first, ' ', second);
    }
    if Listed(ext, entries) {
      var k :| 0 <= k < |entries| && Normalise(entries[k]) == ext;
      assert k == 0 || k == 1;
    }
    if ext == first {
      assert Normalise(entries[0]) == ext;
    } else if ext == second {
      assert Normalise(entries[1]) == ext;
    }
  }

  /** "yaml" is a plain word. */
  lemma YamlIsPlain()
    ensures Normalise("yaml") == "yaml"
  {
    PlainEntry("yaml");
  }

  /** "yml" is a plain word. */
  lemma YmlIsPlain()
    ensures Normalise("yml") == "yml"
  {
    PlainEntry("yml");
  }

  /** A lower-case word without white space is its own entry. */
  lemma {:induction false} PlainEntry(word: string)
    requires word == "" || (!IsSpace(word[0]) && !IsSpace(word[|word| - 1]))
    requires forall i :: 0 <= i < |word| ==> !('A' <= word[i] <= 'Z')
    ensures Normalise(word) == word
  {
    TrimSpaceUnchanged(word);
    LowerUnchanged(word);
  }

  /** A name that starts with no space and ends in a dot and a suffix
      with no trailing space is its own trim. */
  lemma {:induction false} DottedNameTrimmed(stem: string, suffix: string)
    requires suffix == [] || !IsSpace(suffix[|suffix| - 1])
    requires stem == "" || !IsSpace(stem[0])
    ensures TrimSpace(stem + "." + suffix) == stem + "." + suffix
  {
    var name := stem + "." + suffix;
    assert name[0] == (if stem == "" then '.' else stem[0]);
    assert name[|name| - 1] == (if suffix == [] then '.' else suffix[|suffix| - 1]);
    TrimSpaceUnchanged(name);
  }

  /** The extension of such a name, when the suffix has no dots or
      slashes, is the suffix lower-cased. */
  lemma {:induction false} ExtensionOf(stem: string, suffix: string)
    requires '.' !in suffix && '/' !in suffix
    requires suffix == [] || !IsSpace(suffix[|suffix| - 1])
    requires stem == "" || !IsSpace(stem[0])
    ensures FileExtension(stem + "." + suffix) == Lower(suffix)
  {
    var name := stem + "." + suffix;
    DottedNameTrimmed(stem, suffix);
    ExtOfSuffix(stem, suffix);
    TrimPrefixOfConcat(".", suffix);
    assert TrimPrefix(Ext(TrimSpace(name)), ".") == suffix;
  }

  /** The output file's extension must be "yaml" or "yml". */
  lemma {:induction false} OutputFileAllows(ext: string)
    ensures AllowedExtension(ext, OutputFileExtensions) <==> ext == "yaml" || ext == "yml"
  {
    YamlIsPlain();
    YmlIsPlain();
    assert OutputFileExtensions == "yaml" + " " + "yml";
    TwoEntries("yaml", "yml", ext);
  }

  /** A name ending in a dot and a suffix is accepted for the output file
      exactly when the suffix is "yaml" or "yml" in any case; this holds
      for hidden files such as ".config.yaml" (and refuses ".config"). */
  lemma {:induction false} SuffixDecides(stem: string, suffix: string)
    requires '.' !in suffix && '/' !in suffix
    requires suffix != "" && !IsSpace(suffix[|suffix| - 1])
    requires stem == "" || !IsSpace(stem[0])
    ensures ExtensionAllowed(StringField(stem + "." + suffix), OutputFileExtensions)
            <==> Lower(suffix) == "yaml" || Lower(suffix) == "yml"
  {
    DottedNameTrimmed(stem, suffix);
    ExtensionOf(stem, suffix);
    OutputFileAllows(Lower(suffix));
  }

  /** A name ending in a dot, such as ".", has no extension and is
      refused whatever the parameter. */
  lemma {:induction false} TrailingDotRefused(stem: string, param: string)
    requires stem == "" || !IsSpace(stem[0])
    ensures !ExtensionAllowed(StringField(stem + "."), param)
  {
    ExtensionOf(stem, "");
    assert stem + "." + "" == stem + ".";
  }

  /** `HandleOptions`. */
  datatype HandleOptions = HandleOptions(outputFile: string)

  /** The `extension` parameter on `OutputFile`. */
  const OutputFileExtensions: string := "yaml yml"

  const ValidateOptionsFailed: string := "failed to validate options: "

  /** `ValidateOptions`: `required` (a non-empty string) is checked first,
      then `extension`; `describe` is the validation library's text for the
      tag that failed. */
  method ValidateOptions(opts: HandleOptions, describe: string -> string) returns (r: Outcome)
    ensures r.Pass? <==> opts.outputFile != "" && ExtensionAllowed(StringField(opts.outputFile), OutputFileExtensions)
    ensures opts.outputFile == "" ==> r == Fail(ValidateOptionsFailed + describe("required"))
    ensures opts.outputFile != "" && r.Fail? ==> r == Fail(ValidateOptionsFailed + describe("extension"))
  {
    if opts.outputFile == "" {
      return Fail(ValidateOptionsFailed + describe("required"));
    }
    var ok := FileExtensionValidator(StringField(opts.outputFile), OutputFileExtensions);
    if !ok {
      return Fail(ValidateOptionsFailed + describe("extension"));
    }
    return Pass;
  }
}

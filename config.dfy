/**
 * The settings object of src/rand_sn/config.py without its file I/O: how
 * the file name is completed, how the settings are validated, and how
 * `configure` fills them in.
 */
module RandSnConfig {
  import opened Wrappers

  /** The extension every settings file name carries. */
  const Extension: string := ".json"

  /** The file name used when none is given. */
  const DefaultName: string := "RandSN_config"

  /**
   * One of the integer settings `smallest`, `seed` and `biggest` as
   * `_validate` finds it: never assigned (the class only annotates it), set
   * to something that is not an integer, or an integer.
   */
  datatype Field = Unset | NotInteger | Integer(i: int)

  /** The errors the settings object raises. */
  datatype ConfigError =
    | NotADirectory              // __init__: the given path is not a directory (ValueError)
    | MissingAttribute(name: string)  // _validate: the setting was never assigned (AttributeError)
    | NotAnInteger(name: string) // _validate: the setting is not an integer (TypeError)
    | RangeError                 // _validate: not 0 < smallest <= seed <= biggest (ValueError)
    | FileExtension              // _validate: the file name lacks the extension
    | FileNameEmpty              // _validate: the file name is the extension alone
    | PathExtension              // _validate: the full path lacks the extension
    | PathMissing                // _validate: the full path is no longer than the file name

  predicate EndsWith(s: string, suffix: string)
  {
    |suffix| <= |s| && s[|s| - |suffix|..] == suffix
  }

  /** Appending a suffix makes a string end with it. */
  lemma EndsWithAppended(s: string, suffix: string)
    ensures EndsWith(s + suffix, suffix)
  {
    assert (s + suffix)[|s|..] == suffix;
  }

  // ---------------------------------------------------------------------
  // The file name
  // ---------------------------------------------------------------------

  /**
   * The file name `__init__` stores: the given name, or the default when
   * there is none, with the extension appended exactly when it does not
   * already end with it.
   */
  function NormaliseFilename(name: Option<string>): (file: string)
    ensures EndsWith(file, Extension)
    ensures name.None? ==> file == DefaultName + Extension
    ensures name.Some? ==> (file == name.value <==> EndsWith(name.value, Extension))
    ensures name.Some? && !EndsWith(name.value, Extension) ==> file == name.value + Extension
  {
    var base := if name.None? then DefaultName else name.value;
    EndsWithAppended(base, Extension);
    assert !EndsWith(DefaultName, Extension);
    if EndsWith(base, Extension) then base else base + Extension
  }

  /** Completing a name that is already complete leaves it as it is. */
  lemma NormaliseIdempotent(name: Option<string>)
    ensures NormaliseFilename(Some(NormaliseFilename(name))) == NormaliseFilename(name)
  {
  }

  /**
   * The empty name becomes the extension alone, which every later
   * validation refuses.
   */
  lemma EmptyNameBecomesExtension()
    ensures NormaliseFilename(Some("")) == Extension
  {
  }

  /**
   * `os.path.join(path, name)` for two POSIX components: an absolute name
   * replaces the path; otherwise a separator is put between them unless the
   * path is empty or already ends with one.
   */
  function Join(path: string, name: string): (joined: string)
    ensures EndsWith(joined, name)
    ensures |joined| > |name| <==> path != [] && !(|name| > 0 && name[0] == '/')
  {
    EndsWithAppended(path, name);
    EndsWithAppended(path + "/", name);
    if |name| > 0 && name[0] == '/' then name
    else if path == [] || path[|path| - 1] == '/' then path + name
    else path + "/" + name
  }

  // ---------------------------------------------------------------------
  // Validation
  // ---------------------------------------------------------------------

  /** The checks `_validate` makes on the file name and the full path. */
  predicate FileChecksPass(file: string, pathFile: string)
  {
    && EndsWith(file, Extension)
    && file != Extension
    && EndsWith(pathFile, Extension)
    && |pathFile| > |file|
  }

  /** The three integer settings hold integers with 0 < smallest <= seed <= biggest. */
  predicate RangeHolds(smallest: Field, seed: Field, biggest: Field)
  {
    && smallest.Integer? && seed.Integer? && biggest.Integer?
    && 0 < smallest.i <= seed.i <= biggest.i
  }

  /**
   * The error `_validate` raises, if any. The three integer settings are
   * read first (an unassigned one raises), then checked to be integers, in
   * the order smallest, seed, biggest; only then is the range checked, and
   * after it the file name and the full path. The prefix is a string or
   * nothing by its type here, so its check never fails.
   */
  function CheckSettings(smallest: Field, seed: Field, biggest: Field, file: string, pathFile: string): (e: Option<ConfigError>)
    ensures e.None? <==> RangeHolds(smallest, seed, biggest) && FileChecksPass(file, pathFile)
    ensures (smallest.Unset? || seed.Unset? || biggest.Unset?) <==> e.Some? && e.value.MissingAttribute?
    ensures e.Some? && e.value.NotAnInteger? <==>
      && !(smallest.Unset? || seed.Unset? || biggest.Unset?)
      && !(smallest.Integer? && seed.Integer? && biggest.Integer?)
    ensures e == Some(RangeError) <==>
      && smallest.Integer? && seed.Integer? && biggest.Integer?
      && !RangeHolds(smallest, seed, biggest)
  {
    if smallest.Unset? then Some(MissingAttribute("smallest"))
    else if seed.Unset? then Some(MissingAttribute("seed"))
    else if biggest.Unset? then Some(MissingAttribute("biggest"))
    else if !smallest.Integer? then Some(NotAnInteger("smallest"))
    else if !seed.Integer? then Some(NotAnInteger("seed"))
    else if !biggest.Integer? then Some(NotAnInteger("biggest"))
    else if !(0 < smallest.i <= seed.i <= biggest.i) then Some(RangeError)
    else if !EndsWith(file, Extension) then Some(FileExtension)
    else if file == Extension then Some(FileNameEmpty)
    else if !EndsWith(pathFile, Extension) then Some(PathExtension)
    else if |pathFile| <= |file| then Some(PathMissing)
    else None
  }

  /**
   * A settings object made from an existing directory path (never empty) and
   * a relative file name passes the file checks exactly when the name is
   * neither empty nor the extension alone; those two fail them whatever the
   * other settings are.
   */
  lemma FileChecksOfNewConfig(dir: string, name: Option<string>)
    requires dir != []
    requires name.Some? ==> !(|name.value| > 0 && name.value[0] == '/')
    ensures var file := NormaliseFilename(name);
      FileChecksPass(file, Join(dir, file)) <==> name != Some("") && name != Some(Extension)
  {
    var file := NormaliseFilename(name);
    RelativeStaysRelative(name);
    EndsWithTransitive(Join(dir, file), file, Extension);
  }

  /** A completed relative name is still relative. */
  lemma RelativeStaysRelative(name: Option<string>)
    requires name.Some? ==> !(|name.value| > 0 && name.value[0] == '/')
    ensures var file := NormaliseFilename(name); |file| > 0 && file[0] != '/'
  {
    var file := NormaliseFilename(name);
    if name.Some? && !EndsWith(name.value, Extension) {
      assert file == name.value + Extension;
      if |name.value| > 0 {
        assert file[0] == name.value[0];
      } else {
        assert file == Extension;
      }
    } else if name.None? {
      assert file[0] == DefaultName[0];
    }
  }

  /** A suffix of a suffix is a suffix. */
  lemma EndsWithTransitive(a: string, b: string, c: string)
    requires EndsWith(a, b) && EndsWith(b, c)
    ensures EndsWith(a, c)
  {
    assert a[|a| - |c|..] == b[|b| - |c|..];
  }

  /**
   * An absolute file name replaces the directory, so the full path is no
   * longer than the name and validation fails whatever the other settings are.
   */
  lemma AbsoluteNameNeverValidates(dir: string, name: string, smallest: Field, seed: Field, biggest: Field)
    requires |name| > 0 && name[0] == '/'
    ensures var file := NormaliseFilename(Some(name));
      CheckSettings(smallest, seed, biggest, file, Join(dir, file)).Some?
  {
    var file := NormaliseFilename(Some(name));
    assert file[0] == '/';
  }

  /**
   * What `configure` validates: the seed is set to smallest first, so the
   * check passes exactly when smallest and biggest are integers with
   * 0 < smallest <= biggest and the file checks pass.
   */
  lemma ConfigureValidation(smallest: Field, biggest: Field, file: string, pathFile: string)
    ensures CheckSettings(smallest, smallest, biggest, file, pathFile).None? <==>
      && smallest.Integer? && biggest.Integer? && 0 < smallest.i <= biggest.i
      && FileChecksPass(file, pathFile)
  {
  }

  /** Any seed `configure` may draw keeps the settings valid. */
  lemma DrawnSeedValidates(smallest: int, seed: int, biggest: int, file: string, pathFile: string)
    requires CheckSettings(Integer(smallest), Integer(smallest), Integer(biggest), file, pathFile).None?
    requires smallest <= seed <= biggest
    ensures CheckSettings(Integer(smallest), Integer(seed), Integer(biggest), file, pathFile).None?
  {
  }

  // ---------------------------------------------------------------------
  // The settings object
  // ---------------------------------------------------------------------

  class Config {
    var file: string
    var pathFile: string
    var prefix: Option<string>
    var smallest: Field
    var seed: Field
    var biggest: Field

    /**
     * `__init__` once the directory is known to exist: the file name is
     * completed and joined to the directory; no integer setting is assigned.
     */
    constructor (dir: string, configFilename: Option<string>)
      ensures file == NormaliseFilename(configFilename) && pathFile == Join(dir, file)
      ensures EndsWith(file, Extension) && EndsWith(pathFile, file)
      ensures prefix == None && smallest == Unset && seed == Unset && biggest == Unset
    {
      var name := NormaliseFilename(configFilename);
      file := name;
      pathFile := Join(dir, name);
      prefix := None;
      smallest := Unset;
      seed := Unset;
      biggest := Unset;
    }

    /** `_validate`: reads the settings, changes none, and reports the first failing check. */
    method Validate() returns (err: Option<ConfigError>)
      ensures err == CheckSettings(smallest, seed, biggest, file, pathFile)
    {
      err := CheckSettings(smallest, seed, biggest, file, pathFile);
    }

    /**
     * `configure`: stores the prefix and the bounds, sets the seed to
     * smallest, validates, and on success draws the seed anywhere in
     * [smallest, biggest]. When validation raises, the new prefix, bounds
     * and provisional seed stay stored.
     */
    method Configure(newBiggest: Field, newSmallest: Field, newPrefix: Option<string>) returns (err: Option<ConfigError>)
      modifies this
      ensures prefix == newPrefix && smallest == newSmallest && biggest == newBiggest
      ensures file == old(file) && pathFile == old(pathFile)
      ensures err == CheckSettings(newSmallest, newSmallest, newBiggest, file, pathFile)
      ensures err.Some? ==> seed == newSmallest
      ensures err.None? ==> seed.Integer? && newSmallest.i <= seed.i <= newBiggest.i
      ensures err.None? ==> CheckSettings(smallest, seed, biggest, file, pathFile).None?
    {
      prefix := newPrefix;
      smallest := newSmallest;
      biggest := newBiggest;
      seed := smallest;
      err := Validate();
      if err.None? {
        var drawn: int :| smallest.i <= drawn <= biggest.i;
        seed := Integer(drawn);
      }
    }
  }

  /**
   * `Config(path, config_filename)`. `cwd` stands for `os.getcwd()` and
   * `pathIsDirectory` for `os.path.isdir(path)`: a missing path means the
   * working directory; a given one must be a directory.
   */
  method NewConfig(path: Option<string>, configFilename: Option<string>, cwd: string, pathIsDirectory: bool)
    returns (r: Result<Config, ConfigError>)
    ensures r.Failure? <==> path.Some? && !pathIsDirectory
    ensures r.Failure? ==> r.error == NotADirectory
    ensures r.Success? ==> && fresh(r.value)
                           && r.value.file == NormaliseFilename(configFilename)
                           && r.value.pathFile == Join(if path.Some? then path.value else cwd, r.value.file)
                           && r.value.prefix == None
                           && r.value.smallest == Unset && r.value.seed == Unset && r.value.biggest == Unset
  {
    var dir: string;
    if path.None? {
      dir := cwd;
    } else if !pathIsDirectory {
      return Failure(NotADirectory);
    } else {
      dir := path.value;
    }
    var c := new Config(dir, configFilename);
    r := Success(c);
  }
}

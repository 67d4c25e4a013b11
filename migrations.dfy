/** The numbering rule of the migration helper: among the file names in the
    migrations directory that match `????_*.py`, the next number is one
    more than the largest four-character prefix, written with at least four
    digits, or `0001` when there is none; the new file is
    `<number>_<name>.py`, and a blank name becomes `auto_migration`. */
module Migrations {
  import opened Base
  import opened Text

  const DefaultName := "auto_migration"
  const FirstNumber := "0001"

  /** `Path.glob("????_*.py")` on a file name: any four characters, an
      underscore, anything, and the `.py` suffix. */
  predicate Matches(name: string) {
    |name| >= 8 && name[4] == '_'
    && name[|name| - 3] == '.' && name[|name| - 2] == 'p' && name[|name| - 1] == 'y'
  }

  /** `int(f.stem[:4])`; `None` stands for the `ValueError`. */
  function Prefix(name: string): Option<int>
    requires Matches(name)
  {
    ParseInt(name[..4])
  }

  /** The names the glob returns, in directory order. */
  function Existing(files: seq<string>): (r: seq<string>)
    ensures forall f :: f in r <==> f in files && Matches(f)
    ensures r == [] <==> forall f :: f in files ==> !Matches(f)
    decreases |files|
  {
    if files == [] then []
    else (if Matches(files[0]) then [files[0]] else []) + Existing(files[1..])
  }

  /** `max(int(f.stem[:4]) for f in names)`: `None` when any prefix is not
      an integer, since the generator raises before `max` can answer. */
  function MaxPrefix(names: seq<string>): Option<int>
    requires names != [] && forall f :: f in names ==> Matches(f)
    decreases |names|
  {
    var p := Prefix(names[0]);
    if p.None? then None
    else if |names| == 1 then p
    else match MaxPrefix(names[1..])
      case None => None
      case Some(m) => Some(if p.value >= m then p.value else m)
  }

  /** The next migration number, or `None` for the `ValueError` of a prefix
      that is not an integer. */
  function NextNumber(files: seq<string>): Option<string> {
    var ms := Existing(files);
    if ms == [] then Some(FirstNumber)
    else match MaxPrefix(ms)
      case None => None
      case Some(m) => Some(Format04(m + 1))
  }

  function MigrationFilename(number: string, name: string): string {
    number + "_" + name + ".py"
  }

  /** `create_migration(name)` on a directory holding `files`: the next
      number, an underscore, the name and `.py`. */
  function CreateMigration(files: seq<string>, name: string): (r: Option<string>)
    ensures r.None? <==> exists f :: f in files && Matches(f) && Prefix(f).None?
    ensures r.Some? ==>
              NextNumber(files).Some? &&
              var n := NextNumber(files).value;
              |r.value| == |n| + |name| + 4 && r.value[..|n|] == n && r.value[|n|] == '_'
              && r.value[|n| + 1..|n| + 1 + |name|] == name && r.value[|n| + 1 + |name|..] == ".py"
  {
    NextFails(files);
    match NextNumber(files)
    case None => None
    case Some(n) => Some(MigrationFilename(n, name))
  }

  /** The name `__main__` passes on: the stripped input, or the default
      when that is empty. */
  function ChosenName(input: string): (r: string)
    ensures r != ""
    ensures r == DefaultName || r == Strip(input)
  {
    var n := Strip(input);
    if n == "" then DefaultName else n
  }

  // ------------------------------------------------------------------ properties

  /** The largest prefix is one of the prefixes and none is larger; it is
      missing exactly when some prefix is not an integer. */
  lemma {:induction false} MaxPrefixIsMaximum(names: seq<string>)
    requires names != [] && forall f :: f in names ==> Matches(f)
    ensures MaxPrefix(names).None? <==> exists f :: f in names && Prefix(f).None?
    ensures MaxPrefix(names).Some? ==>
              (forall f :: f in names ==> Prefix(f).value <= MaxPrefix(names).value)
              && exists f :: f in names && Prefix(f) == MaxPrefix(names)
    decreases |names|
  {
    if |names| > 1 {
      var rest := names[1..];
      MaxPrefixIsMaximum(rest);
      assert forall f :: f in names ==> f == names[0] || f in rest;
      if Prefix(names[0]).Some? && MaxPrefix(rest).Some? {
        var f :| f in rest && Prefix(f) == MaxPrefix(rest);
        assert f in names;
      }
    } else {
      assert forall f :: f in names ==> f == names[0];
    }
  }

  /** With no matching file the first migration is `0001`. */
  lemma NoMigrationsGivesFirst(files: seq<string>)
    requires forall f :: f in files ==> !Matches(f)
    ensures NextNumber(files) == Some("0001")
    ensures CreateMigration(files, DefaultName) == Some("0001_auto_migration.py")
  {
    assert MigrationFilename(FirstNumber, DefaultName) == "0001_auto_migration.py";
  }

  /** The next number is written with at least four characters, reads back
      as one more than the largest existing prefix, and so is strictly
      greater than every existing prefix; it fails exactly when a prefix is
      not an integer. */
  lemma NextAboveAll(files: seq<string>)
    ensures NextNumber(files).None? <==> exists f :: f in files && Matches(f) && Prefix(f).None?
    ensures NextNumber(files).Some? ==>
              var n := NextNumber(files).value;
              |n| >= 4 && ParseInt(n).Some?
              && (forall f :: f in files && Matches(f) ==> Prefix(f).Some? && Prefix(f).value < ParseInt(n).value)
              && (Existing(files) != [] ==>
                    MaxPrefix(Existing(files)) == Some(ParseInt(n).value - 1)
                    && exists f :: f in files && Matches(f) && Prefix(f) == Some(ParseInt(n).value - 1))
  {
    NextFails(files);
    if NextNumber(files).Some? {
      NextValue(files);
      var ms := Existing(files);
      if ms != [] {
        MaxPrefixIsMaximum(ms);
        var f :| f in ms && Prefix(f) == MaxPrefix(ms);
        assert f in files && Matches(f);
      }
    }
  }

  /** The next number is missing exactly when some prefix is not an integer. */
  lemma NextFails(files: seq<string>)
    ensures NextNumber(files).None? <==> exists f :: f in files && Matches(f) && Prefix(f).None?
  {
    var ms := Existing(files);
    if ms != [] {
      MaxPrefixIsMaximum(ms);
      if MaxPrefix(ms).None? {
        var f :| f in ms && Prefix(f).None?;
        assert f in files && Matches(f);
      }
    }
  }

  /** A next number reads back as one more than the largest prefix. */
  lemma NextValue(files: seq<string>)
    requires NextNumber(files).Some?
    ensures |NextNumber(files).value| >= 4 && ParseInt(NextNumber(files).value).Some?
    ensures Existing(files) != [] ==>
              MaxPrefix(Existing(files)) == Some(ParseInt(NextNumber(files).value).value - 1)
  {
    var ms := Existing(files);
    if ms == [] {
      assert ParseInt("0001") == Some(1) by {
        assert DigitsValue("0001") == 1 by {
          assert "0001"[..3] == "000" && "000"[..2] == "00" && "00"[..1] == "0";
        }
        UnsignedRoundTrip("0001", 1);
      }
    } else {
      Format04RoundTrip(MaxPrefix(ms).value + 1);
    }
  }

  /** For numbers of four characters the new file is itself found by the
      glob, with the new number as its prefix, so the next run continues
      the sequence. */
  lemma NextRunAdvances(files: seq<string>, name: string)
    requires NextNumber(files).Some? && |NextNumber(files).value| == 4
    ensures var n := NextNumber(files).value;
            var fn := MigrationFilename(n, name);
            Matches(fn) && ParseInt(n).Some? && Prefix(fn) == ParseInt(n)
            && NextNumber(files + [fn]) == Some(Format04(ParseInt(n).value + 1))
  {
    var n := NextNumber(files).value;
    NextValue(files);
    AdvanceFrom(files, n, name);
  }

  /** `NextRunAdvances` for any four-character number one above the
      largest prefix. */
  lemma AdvanceFrom(files: seq<string>, n: string, name: string)
    requires |n| == 4 && ParseInt(n).Some?
    requires Existing(files) != [] ==> MaxPrefix(Existing(files)) == Some(ParseInt(n).value - 1)
    ensures var fn := MigrationFilename(n, name);
            Matches(fn) && Prefix(fn) == ParseInt(n)
            && NextNumber(files + [fn]) == Some(Format04(ParseInt(n).value + 1))
  {
    FilenameMatches(n, name);
    NextAfterAppend(files, MigrationFilename(n, name), ParseInt(n).value);
  }

  /** Appending a file whose prefix is one above the largest gives the
      number after that prefix. */
  lemma NextAfterAppend(files: seq<string>, fn: string, p: int)
    requires Matches(fn) && Prefix(fn) == Some(p)
    requires Existing(files) != [] ==> MaxPrefix(Existing(files)) == Some(p - 1)
    ensures NextNumber(files + [fn]) == Some(Format04(p + 1))
  {
    ExistingAppend(files, fn);
    MaxPrefixAppend(Existing(files), fn);
  }

  /** A four-character number gives a name the glob finds, with that
      number as its prefix. */
  lemma FilenameMatches(number: string, name: string)
    requires |number| == 4
    ensures Matches(MigrationFilename(number, name))
    ensures MigrationFilename(number, name)[..4] == number
    ensures Prefix(MigrationFilename(number, name)) == ParseInt(number)
  {
    var fn := MigrationFilename(number, name);
    assert fn[..4] == number;
    assert fn[4] == '_';
  }

  /** A file whose prefix is above every earlier one becomes the maximum. */
  lemma {:induction false} MaxPrefixAppend(ms: seq<string>, f: string)
    requires forall g :: g in ms ==> Matches(g)
    requires Matches(f) && Prefix(f).Some?
    requires ms != [] ==> MaxPrefix(ms).Some? && MaxPrefix(ms).value < Prefix(f).value
    ensures MaxPrefix(ms + [f]) == Prefix(f)
    decreases |ms|
  {
    var ms2 := ms + [f];
    if ms == [] {
      assert ms2 == [f];
    } else {
      assert ms2[0] == ms[0];
      assert ms2[1..] == ms[1..] + [f];
      if |ms| > 1 {
        MaxPrefixAppend(ms[1..], f);
      } else {
        assert ms[1..] + [f] == [f];
      }
    }
  }

  lemma {:induction false} ExistingAppend(files: seq<string>, f: string)
    requires Matches(f)
    ensures Existing(files + [f]) == Existing(files) + [f]
    decreases |files|
  {
    if files == [] {
      assert files + [f] == [f];
    } else {
      assert (files + [f])[1..] == files[1..] + [f];
      ExistingAppend(files[1..], f);
    }
  }

  /** The chosen name is never blank: a blank or whitespace-only input
      gives `auto_migration`, any other input its stripped text. */
  lemma ChosenNameRule(input: string)
    ensures Blank(input) ==> ChosenName(input) == DefaultName
    ensures !Blank(input) ==> ChosenName(input) == Strip(input) && Strip(input) != ""
    ensures ChosenName(input) != ""
  {
    StripEmptyIffBlank(input);
  }
}

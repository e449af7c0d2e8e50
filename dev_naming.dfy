/** The names `updatePlaygroundAppVue` (src/commands/dev.ts) derives from a
    component name: the capitalised name it imports and registers, the
    kebab-case name it looks for in the template, and the tag it writes.
    Letters are ASCII only. */
module DevNaming {
  import opened Strings

  /** `name.replace(/([A-Z])/g, '-$1')`: a dash before every upper-case
      letter. */
  function Dasherize(name: string): (r: string)
    ensures |r| >= |name|
  {
    if name == [] then []
    else (if IsAsciiUpper(name[0]) then ['-', name[0]] else [name[0]]) + Dasherize(name[1..])
  }

  /** `.toLowerCase().replace(/^-/, '')`: lower-case, then drop one
      leading dash. */
  function KebabCase(name: string): string {
    var d := Lower(Dasherize(name));
    if d != [] && d[0] == '-' then d[1..] else d
  }

  /** The tag used for registration and in the template: the kebab name when
      it already has a dash, `v-<kebab>` otherwise. */
  function TagName(kebab: string): string {
    if '-' in kebab then kebab else "v-" + kebab
  }

  /** `componentName.charAt(0).toUpperCase() + componentName.slice(1)`. */
  function Capitalized(name: string): string {
    if name == [] then [] else [UpperChar(name[0])] + name[1..]
  }

  /** The characters of a string other than dashes. */
  function Undashed(s: string): string {
    if s == [] then [] else (if s[0] == '-' then [] else [s[0]]) + Undashed(s[1..])
  }

  // ---------------------------------------------------------------------
  // Properties

  lemma {:induction false} DasherizeLowerUndashed(name: string)
    ensures Undashed(Lower(Dasherize(name))) == Undashed(Lower(name))
    decreases |name|
  {
    if name != [] {
      DasherizeLowerUndashed(name[1..]);
      var head := if IsAsciiUpper(name[0]) then ['-', name[0]] else [name[0]];
      assert Dasherize(name) == head + Dasherize(name[1..]);
      LowerAppend(head, Dasherize(name[1..]));
      UndashedAppend(Lower(head), Lower(Dasherize(name[1..])));
      LowerAppend([name[0]], name[1..]);
      assert name == [name[0]] + name[1..];
      UndashedAppend(Lower([name[0]]), Lower(name[1..]));
      if IsAsciiUpper(name[0]) {
        assert Lower(head) == ['-'] + Lower([name[0]]);
        UndashedAppend(['-'], Lower([name[0]]));
      }
    }
  }

  lemma LowerAppend(a: string, b: string)
    ensures Lower(a + b) == Lower(a) + Lower(b)
  {
  }

  lemma {:induction false} UndashedAppend(a: string, b: string)
    ensures Undashed(a + b) == Undashed(a) + Undashed(b)
    decreases |a|
  {
    if a != [] {
      assert (a + b)[1..] == a[1..] + b;
      UndashedAppend(a[1..], b);
    } else {
      assert a + b == b;
    }
  }

  /** The kebab name spells the component name: leaving the dashes out of
      both, it is the lower-cased name. */
  lemma KebabSpellsName(name: string)
    ensures Undashed(KebabCase(name)) == Undashed(Lower(name))
  {
    DasherizeLowerUndashed(name);
    var d := Lower(Dasherize(name));
    if d != [] && d[0] == '-' {
      assert d == ['-'] + d[1..];
      UndashedAppend(['-'], d[1..]);
    }
  }

  /** The kebab name holds no upper-case letter. */
  lemma KebabIsLowerCase(name: string)
    ensures forall i :: 0 <= i < |KebabCase(name)| ==> !IsAsciiUpper(KebabCase(name)[i])
  {
  }

  lemma {:induction false} DasherizeWithoutUpper(name: string)
    requires forall i :: 0 <= i < |name| ==> !IsAsciiUpper(name[i])
    ensures Dasherize(name) == name
    decreases |name|
  {
    if name != [] {
      DasherizeWithoutUpper(name[1..]);
    }
  }

  /** A name that is already lower-case and does not start with a dash is
      its own kebab name. */
  lemma KebabOfKebab(name: string)
    requires forall i :: 0 <= i < |name| ==> !IsAsciiUpper(name[i])
    requires name == [] || name[0] != '-'
    ensures KebabCase(name) == name
  {
    DasherizeWithoutUpper(name);
    assert Lower(name) == name;
  }

  /** Every upper-case letter after the first character starts a new
      dash-separated word. */
  lemma {:induction false} DashBeforeEachCapital(name: string, i: nat)
    requires 0 < i < |name| && IsAsciiUpper(name[i])
    ensures exists k :: (0 < k < |KebabCase(name)| && KebabCase(name)[k - 1] == '-'
      && KebabCase(name)[k] == LowerChar(name[i]))
  {
    DasherizeSplits(name, i);
    var pre := Dasherize(name[..i]);
    var d := Dasherize(name);
    assert d[|pre|] == '-' && d[|pre| + 1] == name[i];
    var l := Lower(d);
    if l != [] && l[0] == '-' {
      assert KebabCase(name) == l[1..];
      assert |pre| >= 1;
      assert KebabCase(name)[|pre|] == LowerChar(name[i]);
      assert KebabCase(name)[|pre| - 1] == '-';
    } else {
      assert KebabCase(name)[|pre| + 1] == LowerChar(name[i]);
    }
  }

  lemma {:induction false} DasherizeSplits(name: string, i: nat)
    requires i <= |name|
    ensures Dasherize(name) == Dasherize(name[..i]) + Dasherize(name[i..])
    decreases i
  {
    if i > 0 {
      DasherizeSplits(name[1..], i - 1);
      assert name[1..][..i - 1] == name[1..i];
      assert name[1..][i - 1..] == name[i..];
      assert name[..i] == [name[0]] + name[1..i];
      assert name[..i][1..] == name[1..i];
    } else {
      assert name[..0] == [] && name[0..] == name;
    }
  }

  /** The tag always has a dash, as custom element and multi-word
      component names need; it is the kebab name itself exactly when that
      has one. */
  lemma TagHasDash(kebab: string)
    ensures '-' in TagName(kebab)
    ensures TagName(kebab) == kebab <==> '-' in kebab
    ensures '-' !in kebab ==> TagName(kebab) == "v-" + kebab
  {
    var t := TagName(kebab);
    if '-' !in kebab {
      assert t[1] == '-';
      assert |t| != |kebab|;
    }
  }

  /** Capitalising only changes the first character and never what the
      name reads as in lower case ... */
  lemma CapitalizedSameLetters(name: string)
    ensures |Capitalized(name)| == |name|
    ensures name != [] ==> Capitalized(name)[1..] == name[1..] && !IsAsciiLower(Capitalized(name)[0])
    ensures Lower(Capitalized(name)) == Lower(name)
  {
  }

  /** ... so the registered `ComponentName` and the component name give the
      same kebab name and tag. */
  lemma KebabIgnoresCapital(name: string)
    ensures KebabCase(Capitalized(name)) == KebabCase(name)
  {
    if name != [] {
      var c := name[0];
      var rest := name[1..];
      assert name == [c] + rest;
      assert Capitalized(name) == [UpperChar(c)] + rest;
      DasherizeSplits(name, 1);
      DasherizeSplits(Capitalized(name), 1);
      assert name[..1] == [c] && name[1..] == rest;
      assert Capitalized(name)[..1] == [UpperChar(c)] && Capitalized(name)[1..] == rest;
      LowerAppend(Dasherize([c]), Dasherize(rest));
      LowerAppend(Dasherize([UpperChar(c)]), Dasherize(rest));
      if IsAsciiLower(c) {
        assert Dasherize([c]) == [c];
        assert Dasherize([UpperChar(c)]) == ['-', UpperChar(c)];
        assert Lower(['-', UpperChar(c)]) == ['-', c];
        assert Lower([c]) == [c];
      } else {
        assert UpperChar(c) == c;
      }
    }
  }

  /** A one-word component such as `button`, registered as `Button`, is
      looked for as itself and tagged `v-button`. */
  lemma OneWordComponent(name: string)
    requires name != [] && forall i :: 0 <= i < |name| ==> IsAsciiLower(name[i])
    ensures KebabCase(Capitalized(name)) == name
    ensures TagName(KebabCase(Capitalized(name))) == "v-" + name
  {
    KebabIgnoresCapital(name);
    assert !IsAsciiLower('-');
    KebabOfKebab(name);
    assert '-' !in name;
  }
}

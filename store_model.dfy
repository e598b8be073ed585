/** The Store schema: a merchant's storefront, its unique keys and the
    pre-save hook that derives the URL slug from the name. */
module StoreModel {
  import opened Common

  datatype StoreStatus = Active | Inactive | Suspended

  function StatusName(s: StoreStatus): string
  {
    match s
    case Active => "active"
    case Inactive => "inactive"
    case Suspended => "suspended"
  }

  const DefaultStatus: StoreStatus := Active
  const DefaultThemeColor: string := "#3498db"

  // ---------------------------------------------------------------------
  // The slug pipeline: lower-case the name, drop every character that is
  // not a lower-case ASCII letter, a digit, white space or a dash, turn each
  // run of white space into a dash, each run of dashes into one dash, and
  // trim.
  // ---------------------------------------------------------------------

  predicate IsAlnum(c: char)
  {
    ('a' <= c <= 'z') || ('0' <= c <= '9')
  }

  predicate IsSlugChar(c: char)
  {
    IsAlnum(c) || c == '-'
  }

  /** `toLowerCase` on one character, as far as the slug can tell: ASCII
      capitals, the Kelvin sign (to `k`) and the dotted capital I (to `i`
      and a combining dot) are the only characters whose lower-case form
      contains an ASCII letter. Other characters are kept as they are; the
      next step removes them either way. */
  function LowerChar(c: char): string
  {
    if 'A' <= c <= 'Z' then [(c as int + 32) as char]
    else if c as int == 0x212A then "k"
    else if c as int == 0x130 then ['i', 0x307 as char]
    else [c]
  }

  function Lower(s: string): string
  {
    if s == [] then [] else LowerChar(s[0]) + Lower(s[1..])
  }

  /** Characters the character class `[a-z0-9\s-]` lets through. */
  predicate Kept(c: char)
  {
    IsAlnum(c) || IsJsSpace(c) || c == '-'
  }

  /** `.replace(/[^a-z0-9\s-]/g, '')` */
  function StripDisallowed(s: string): (r: string)
    ensures forall i :: 0 <= i < |r| ==> Kept(r[i])
  {
    if s == [] then []
    else if Kept(s[0]) then [s[0]] + StripDisallowed(s[1..])
    else StripDisallowed(s[1..])
  }

  /** The two run classes the pipeline collapses: white space and dashes. */
  datatype RunClass = Space | Dash

  predicate InClass(c: char, k: RunClass)
  {
    match k
    case Space => IsJsSpace(c)
    case Dash => c == '-'
  }

  predicate NoDoubleDash(s: string)
  {
    forall i :: 0 <= i < |s| - 1 ==> !(s[i] == '-' && s[i + 1] == '-')
  }

  /** `.replace(/\s+/g, '-')` or `.replace(/-+/g, '-')`: every maximal run of
      class `k` becomes one dash. `inRun` says the character before `s` was
      in the run being replaced, so a continuing run adds nothing. Every
      output character is a dash or a character of `s` outside the class;
      after collapsing dashes no two dashes are adjacent. */
  function CollapseRuns(s: string, k: RunClass, inRun: bool): (r: string)
    ensures forall i :: 0 <= i < |r| ==> r[i] == '-' || (r[i] in s && !InClass(r[i], k))
    ensures k == Dash ==> NoDoubleDash(r) && (inRun ==> r == [] || r[0] != '-')
  {
    if s == [] then []
    else if InClass(s[0], k) then
      (if inRun then [] else ['-']) + CollapseRuns(s[1..], k, true)
    else
      [s[0]] + CollapseRuns(s[1..], k, false)
  }

  /** The slug the pre-save hook derives from a store name. */
  function Slugify(name: string): string
  {
    var stripped := StripDisallowed(Lower(name));
    Trim(CollapseRuns(CollapseRuns(stripped, Space, false), Dash, false))
  }

  predicate AllSlugChars(s: string)
  {
    forall i :: 0 <= i < |s| ==> IsSlugChar(s[i])
  }

  /** The letters and digits of a string, in order. */
  function Alnums(s: string): string
  {
    if s == [] then []
    else if IsAlnum(s[0]) then [s[0]] + Alnums(s[1..])
    else Alnums(s[1..])
  }

  lemma {:induction false} TrimKeepsSlugChars(s: string)
    requires AllSlugChars(s)
    ensures Trim(s) == s
  {
    if s != [] {
      assert IsSlugChar(s[0]) && IsSlugChar(s[|s| - 1]);
    }
    TrimmedFixpoint(s);
  }

  /** After the space pass every character is a letter, a digit or a dash. */
  lemma SpacePassCharset(s: string, inRun: bool)
    requires forall i :: 0 <= i < |s| ==> Kept(s[i])
    ensures AllSlugChars(CollapseRuns(s, Space, inRun))
  {
    var r := CollapseRuns(s, Space, inRun);
    forall i | 0 <= i < |r| ensures IsSlugChar(r[i]) {
      if r[i] != '-' {
        assert r[i] in s && !IsJsSpace(r[i]);
      }
    }
  }

  /** A slug consists of lower-case ASCII letters, digits and dashes only,
      and never holds two dashes in a row. */
  lemma SlugShape(name: string)
    ensures AllSlugChars(Slugify(name)) && NoDoubleDash(Slugify(name))
  {
    var spaced := CollapseRuns(StripDisallowed(Lower(name)), Space, false);
    SpacePassCharset(StripDisallowed(Lower(name)), false);
    var dashed := CollapseRuns(spaced, Dash, false);
    forall i | 0 <= i < |dashed| ensures IsSlugChar(dashed[i]) {
      if dashed[i] != '-' {
        assert dashed[i] in spaced;
      }
    }
    TrimKeepsSlugChars(dashed);
  }

  lemma {:induction false} AlnumsStrip(s: string)
    ensures Alnums(StripDisallowed(s)) == Alnums(s)
  {
    if s != [] {
      AlnumsStrip(s[1..]);
      if Kept(s[0]) {
        assert ([s[0]] + StripDisallowed(s[1..]))[1..] == StripDisallowed(s[1..]);
      }
    }
  }

  lemma {:induction false} AlnumsCollapse(s: string, k: RunClass, inRun: bool)
    ensures Alnums(CollapseRuns(s, k, inRun)) == Alnums(s)
  {
    if s != [] {
      var rest := CollapseRuns(s[1..], k, InClass(s[0], k));
      AlnumsCollapse(s[1..], k, InClass(s[0], k));
      if InClass(s[0], k) {
        if !inRun {
          assert (['-'] + rest)[1..] == rest;
        } else {
          assert [] + rest == rest;
        }
      } else {
        assert ([s[0]] + rest)[1..] == rest;
      }
    }
  }

  /** The letters and digits of the lower-cased name are exactly the letters
      and digits of the slug, in the same order: the pipeline drops and
      rewrites only other characters. */
  lemma SlugKeepsAlnums(name: string)
    ensures Alnums(Slugify(name)) == Alnums(Lower(name))
  {
    var stripped := StripDisallowed(Lower(name));
    var spaced := CollapseRuns(stripped, Space, false);
    var dashed := CollapseRuns(spaced, Dash, false);
    SlugShape(name);
    SpacePassCharset(stripped, false);
    forall i | 0 <= i < |dashed| ensures IsSlugChar(dashed[i]) {
      if dashed[i] != '-' {
        assert dashed[i] in spaced;
      }
    }
    TrimKeepsSlugChars(dashed);
    AlnumsCollapse(spaced, Dash, false);
    AlnumsCollapse(stripped, Space, false);
    AlnumsStrip(Lower(name));
  }

  lemma {:induction false} LowerFixesSlugChars(s: string)
    requires AllSlugChars(s)
    ensures Lower(s) == s
  {
    if s != [] {
      assert LowerChar(s[0]) == [s[0]];
      LowerFixesSlugChars(s[1..]);
      assert s == [s[0]] + s[1..];
    }
  }

  lemma {:induction false} StripFixesSlugChars(s: string)
    requires AllSlugChars(s)
    ensures StripDisallowed(s) == s
  {
    if s != [] {
      StripFixesSlugChars(s[1..]);
      assert s == [s[0]] + s[1..];
    }
  }

  lemma {:induction false} SpacePassFixesSlugChars(s: string, inRun: bool)
    requires AllSlugChars(s)
    ensures CollapseRuns(s, Space, inRun) == s
  {
    if s != [] {
      assert !IsJsSpace(s[0]);
      SpacePassFixesSlugChars(s[1..], false);
      assert s == [s[0]] + s[1..];
    }
  }

  lemma {:induction false} DashPassFixesSingleDashes(s: string, inRun: bool)
    requires NoDoubleDash(s) && (inRun ==> s == [] || s[0] != '-')
    ensures CollapseRuns(s, Dash, inRun) == s
  {
    if s != [] {
      DashPassFixesSingleDashes(s[1..], s[0] == '-');
      assert s == [s[0]] + s[1..];
    }
  }

  /** Slugging a slug returns it unchanged, so re-saving a store whose name
      is already a slug keeps the slug. */
  lemma SlugIdempotent(name: string)
    ensures Slugify(Slugify(name)) == Slugify(name)
  {
    var s := Slugify(name);
    SlugShape(name);
    LowerFixesSlugChars(s);
    StripFixesSlugChars(s);
    SpacePassFixesSlugChars(s, false);
    DashPassFixesSingleDashes(s, false);
    TrimKeepsSlugChars(s);
  }

  /** The slug field's own `lowercase` and `trim` setters leave a derived
      slug as it is. */
  lemma SlugSettersNoOp(name: string)
    ensures Lower(Slugify(name)) == Slugify(name) && Trim(Slugify(name)) == Slugify(name)
  {
    SlugShape(name);
    LowerFixesSlugChars(Slugify(name));
    TrimKeepsSlugChars(Slugify(name));
  }

  // ---------------------------------------------------------------------
  // The store document and its unique keys.
  // ---------------------------------------------------------------------

  /** A loaded store document. `slug` is absent until the first save. */
  class StoreDocument {
    var name: string
    var description: string
    var slug: Option<string>
    var owner: UserId
    var status: StoreStatus
    var themeColor: string
    var isNew: bool

    /** A new store: the name is trimmed by its setter and the rest takes
        the schema defaults. */
    constructor (name: string, owner: UserId)
      ensures this.name == Trim(name) && this.owner == owner && description == []
      ensures slug.None? && status == DefaultStatus && themeColor == DefaultThemeColor && isNew
      // the validators accept it exactly for a trimmed name of 3 to 100 characters
      ensures Valid() <==> 3 <= |Trim(name)| <= 100
    {
      var trimmed := Trim(name);
      TrimSpec(name);
      this.name := trimmed;
      this.owner := owner;
      description := [];
      slug := None;
      status := Active;
      themeColor := "#3498db";
      isNew := true;
    }

    /** The schema's validators on name and description. */
    predicate Valid()
      reads this
    {
      IsTrimmed(name) && 3 <= |name| <= 100 && |description| <= 500
    }

    /** The pre-save hook: the slug is derived again only when the store is
        new or its name was modified; otherwise it is left as it was. */
    method PreSave(nameModified: bool)
      modifies this`slug
      ensures nameModified || isNew ==> slug == Some(Slugify(name))
      ensures !nameModified && !isNew ==> slug == old(slug)
    {
      if nameModified || isNew {
        slug := Some(Slugify(name));
      }
    }
  }

  /** The unique fields of a stored store. */
  datatype StoreKeys = StoreKeys(name: string, slug: string, owner: UserId)

  /** The unique indexes on `name`, `slug` and `owner`: one store per owner,
      no two stores with the same name or slug. */
  predicate KeysUnique(stores: seq<StoreKeys>)
  {
    forall i, j :: 0 <= i < j < |stores| ==>
      stores[i].name != stores[j].name && stores[i].slug != stores[j].slug
      && stores[i].owner != stores[j].owner
  }

  predicate Clashes(a: StoreKeys, b: StoreKeys)
  {
    a.name == b.name || a.slug == b.slug || a.owner == b.owner
  }

  /** Inserting a store through the three unique indexes: refused exactly
      when one of its keys is already taken. */
  function InsertStore(stores: seq<StoreKeys>, k: StoreKeys): (r: Result<seq<StoreKeys>, StoreKeys>)
    ensures r.Err? <==> exists i :: 0 <= i < |stores| && Clashes(stores[i], k)
    ensures r.Ok? ==> r.value == stores + [k]
    ensures r.Ok? && KeysUnique(stores) ==> KeysUnique(r.value)
  {
    if exists i :: 0 <= i < |stores| && Clashes(stores[i], k) then Err(k)
    else Ok(stores + [k])
  }
}

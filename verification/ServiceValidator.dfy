/** Service names: the `.service` suffix, categories, and which services may be operated on. */
module ServiceValidator {
  import opened Sequences

  type Name = string

  const SUFFIX: string := ".service"

  const INFRASTRUCTURE: set<Name> := {
    "postgres", "postgres.internal", "redis", "redis.internal",
    "pgweb", "pgweb.internal", "caddy", "caddy.internal" }

  const FRAMEWORK: set<Name> := { "infrasrv", "infrasrv.service", "opsbffsrv", "opsbffsrv.service" }

  datatype Category = Infrastructure | Framework | Business

  predicate StartsWith(s: string, p: string) {
    |p| <= |s| && s[..|p|] == p
  }

  /** Removes every occurrence of the suffix, from the left, without looking again at what is joined. */
  function Strip(s: string): string
    decreases |s|
  {
    if s == "" then ""
    else if StartsWith(s, SUFFIX) then Strip(s[8..])
    else [s[0]] + Strip(s[1..])
  }

  function FullName(s: Name): Name {
    Strip(s) + SUFFIX
  }

  function CategoryOf(s: Name): Category {
    var base, full := Strip(s), FullName(s);
    if base in INFRASTRUCTURE || full in INFRASTRUCTURE then Infrastructure
    else if base in FRAMEWORK || full in FRAMEWORK then Framework
    else Business
  }

  // ---- Stripping ------------------------------------------------------------------------------

  /** Appending the suffix creates no match that straddles the joint: it is removed again, and
      nothing else is, whatever the name looks like. */
  lemma {:induction false} StripAppended(s: string)
    ensures Strip(s + SUFFIX) == Strip(s)
    decreases |s|
  {
    if s == "" {
      assert s + SUFFIX == SUFFIX && SUFFIX[..8] == SUFFIX && SUFFIX[8..] == "";
    } else if StartsWith(s, SUFFIX) {
      assert (s + SUFFIX)[..8] == s[..8] && (s + SUFFIX)[8..] == s[8..] + SUFFIX;
      StripAppended(s[8..]);
    } else {
      NoStraddling(s);
      assert (s + SUFFIX)[1..] == s[1..] + SUFFIX;
      StripAppended(s[1..]);
    }
  }

  /** The suffix cannot begin inside a name and end inside an appended suffix. */
  lemma NoStraddling(s: string)
    requires s != "" && !StartsWith(s, SUFFIX)
    ensures !StartsWith(s + SUFFIX, SUFFIX)
  {
    var t := s + SUFFIX;
    if |s| < 8 {
      assert t[..8][|s|] == t[|s|] == SUFFIX[0];
      assert SUFFIX[|s|] != SUFFIX[0];
    } else {
      assert t[..8] == s[..8];
    }
  }

  predicate Occurs(s: string) {
    s != "" && (StartsWith(s, SUFFIX) || Occurs(s[1..]))
  }

  /** Stripping leaves exactly those names as they are in which the suffix does not occur. */
  lemma {:induction false} StripPlain(s: string)
    ensures Strip(s) == s <==> !Occurs(s)
    ensures |Strip(s)| <= |s|
    decreases |s|
  {
    if s != "" {
      if StartsWith(s, SUFFIX) {
        StripPlain(s[8..]);
      } else {
        StripPlain(s[1..]);
        assert s == [s[0]] + s[1..];
      }
    }
  }

  // ---- Categories ----------------------------------------------------------------------------------

  predicate Reserved(s: Name) {
    s in INFRASTRUCTURE || s in FRAMEWORK
  }

  predicate DotFree(s: string) {
    forall i | 0 <= i < |s| :: s[i] != '.'
  }

  lemma {:induction false} NoDot(s: string)
    requires DotFree(s)
    ensures Strip(s) == s
    decreases |s|
  {
    if s != "" {
      assert SUFFIX[0] == '.' && (|s| >= 8 ==> s[..8][0] == s[0]);
      NoDot(s[1..]);
      assert s == [s[0]] + s[1..];
    }
  }

  lemma SuffixInside(base: Name)
    ensures var full := base + SUFFIX; |full| >= 8 && full[|full| - 8] == '.' && full[|full| - 7] == 's' && full[..|full| - 8] == base
  {
  }

  /** The category hangs on the stripped name alone. */
  lemma BaseDecides(s: Name)
    ensures CategoryOf(s) ==
            if Strip(s) in INFRASTRUCTURE then Infrastructure else if Strip(s) in FRAMEWORK then Framework else Business
  {
    var base, full := Strip(s), FullName(s);
    SuffixInside(base);
    assert full !in INFRASTRUCTURE;
    if full in FRAMEWORK {
      assert full == "infrasrv.service" || full == "opsbffsrv.service";
      assert base == "infrasrv" || base == "opsbffsrv";
    }
  }

  lemma FrameworkShape(s: Name)
    requires s in FRAMEWORK
    ensures exists b :: DotFree(b) && b in FRAMEWORK && b !in INFRASTRUCTURE && (s == b || s == b + SUFFIX)
  {
    var b := if s == "infrasrv" || s == "infrasrv.service" then "infrasrv" else "opsbffsrv";
    assert DotFree(b) && b in FRAMEWORK && b !in INFRASTRUCTURE && (s == b || s == b + SUFFIX);
  }

  lemma InfrastructureShape(s: Name)
    requires s in INFRASTRUCTURE
    ensures exists b :: DotFree(b) && (s == b || s == b + ".internal")
  {
    var b := if |s| < 9 then s else s[..|s| - 9];
    assert DotFree(b) && (s == b || s == b + ".internal");
  }

  /** Stripping a reserved name gives a reserved name of the same category. */
  lemma ReservedStripped(s: Name)
    requires Reserved(s)
    ensures s in INFRASTRUCTURE ==> Strip(s) == s
    ensures s in FRAMEWORK ==> Strip(s) in FRAMEWORK && Strip(s) !in INFRASTRUCTURE
  {
    if s in FRAMEWORK {
      FrameworkShape(s);
      var b :| DotFree(b) && b in FRAMEWORK && b !in INFRASTRUCTURE && (s == b || s == b + SUFFIX);
      NoDot(b);
      StripAppended(b);
    }
    if s in INFRASTRUCTURE {
      InfrastructureShape(s);
      var b :| DotFree(b) && (s == b || s == b + ".internal");
      NoDot(b);
      InternalPlain(b);
    }
  }

  lemma {:induction false} InternalPlain(s: string)
    requires DotFree(s)
    ensures Strip(s + ".internal") == s + ".internal"
    decreases |s|
  {
    var t := s + ".internal";
    if s == "" {
      assert t == ".internal" && t[..8][1] == 'i' && SUFFIX[1] == 's';
      NoDot(t[1..]);
      assert [t[0]] + t[1..] == t;
    } else {
      assert t[0] == s[0] && SUFFIX[0] == '.' && t[..8][0] == t[0];
      assert t[1..] == s[1..] + ".internal";
      InternalPlain(s[1..]);
      assert t == [t[0]] + t[1..];
    }
  }

  /** A name's full form is always in the category of its base. */
  lemma FullSharesCategory(s: Name)
    ensures CategoryOf(FullName(s)) == CategoryOf(Strip(s))
  {
    StripAppended(Strip(s));
    BaseDecides(FullName(s));
    BaseDecides(Strip(s));
  }

  /** A name itself is in that category exactly unless stripping it leaves a harmless-looking name
      that would be reserved if it were stripped once more. */
  predicate Uncovered(s: Name) {
    !Reserved(Strip(s)) && Reserved(Strip(Strip(s)))
  }

  lemma AliasesShareCategory(s: Name)
    ensures CategoryOf(s) == CategoryOf(Strip(s)) <==> !Uncovered(s)
    ensures !Occurs(Strip(s)) ==> !Uncovered(s)
  {
    BaseDecides(s);
    BaseDecides(Strip(s));
    StripPlain(Strip(s));
    if Reserved(Strip(s)) { ReservedStripped(Strip(s)); }
  }

  /** There are such names: a suffix inside another one, after any infrastructure name without a dot. */
  lemma UncoveredName(r: Name)
    requires r in INFRASTRUCTURE && DotFree(r)
    ensures var s := r + ".serv" + SUFFIX + "ice";
            Uncovered(s) && CategoryOf(s) == Business && CategoryOf(Strip(s)) == Infrastructure
  {
    var s := r + ".serv" + SUFFIX + "ice";
    StripNested(r);
    StripAppended(r);
    NoDot(r);
    SuffixedNotReserved(r);
    BaseDecides(s);
    BaseDecides(Strip(s));
  }

  lemma SuffixedNotReserved(r: Name)
    requires r in INFRASTRUCTURE
    ensures !Reserved(r + SUFFIX)
  {
    SuffixInside(r);
    var full := r + SUFFIX;
    assert full[..|full| - 8] == r;
    assert "infrasrv.service"[..8] == "infrasrv" && "opsbffsrv.service"[..9] == "opsbffsrv";
  }

  lemma {:induction false} StripNested(s: string)
    requires DotFree(s)
    ensures Strip(s + ".serv" + SUFFIX + "ice") == s + SUFFIX
    decreases |s|
  {
    var t := s + ".serv" + SUFFIX + "ice";
    if s == "" {
      NestedAlone("serv", "ice");
      assert t == "." + "serv" + SUFFIX + "ice";
    } else {
      assert t[..8][0] == s[0] != '.';
      HeadKept(t);
      assert t[1..] == s[1..] + ".serv" + SUFFIX + "ice";
      StripNested(s[1..]);
      assert s + SUFFIX == [s[0]] + (s[1..] + SUFFIX);
    }
  }

  lemma NestedAlone(left: string, right: string)
    requires left == "serv" && right == "ice"
    ensures Strip("." + left + SUFFIX + right) == SUFFIX
  {
    var t := "." + left + SUFFIX + right;
    assert t[..8][5] == '.' && SUFFIX[5] == 'i';
    HeadKept(t);
    assert t == "." + (left + SUFFIX + right);
    NoDotThenSuffix(left, right);
    assert "." + (left + right) == SUFFIX;
  }

  lemma HeadKept(t: string)
    requires t != "" && !StartsWith(t, SUFFIX)
    ensures Strip(t) == [t[0]] + Strip(t[1..])
  {
  }

  lemma {:induction false} NoDotThenSuffix(s: string, tail: string)
    requires DotFree(s)
    requires DotFree(tail)
    ensures Strip(s + SUFFIX + tail) == s + tail
    decreases |s|
  {
    var t := s + SUFFIX + tail;
    if s == "" {
      assert t[..8] == SUFFIX && t[8..] == tail;
      NoDot(tail);
      assert s + tail == tail;
    } else {
      assert t[..8][0] == s[0] != '.';
      HeadKept(t);
      assert t[1..] == s[1..] + SUFFIX + tail;
      NoDotThenSuffix(s[1..], tail);
      assert s + tail == [s[0]] + (s[1..] + tail);
    }
  }

  // ---- The loaded services -----------------------------------------------------------------------

  predicate NamedIn(s: Name, known: set<Name>) {
    s in known || Strip(s) in known || FullName(s) in known
  }

  function BusinessOf(all: set<Name>): set<Name> {
    set s | s in all && CategoryOf(s) == Business
  }

  /** Whatever was loaded and whatever name is asked about: a name that counts as operable is a
      business name. */
  lemma OperableIsBusiness(all: set<Name>, s: Name)
    requires NamedIn(s, BusinessOf(all))
    ensures CategoryOf(s) == Business && NamedIn(s, all)
  {
    FullSharesCategory(s);
    BaseDecides(s);
    BaseDecides(Strip(s));
    if Reserved(Strip(s)) { ReservedStripped(Strip(s)); }
  }

  /** Neither a reserved service nor its base nor its full form is ever operable. */
  lemma NoAliasOperable(all: set<Name>, reserved: Name)
    requires CategoryOf(reserved) != Business
    ensures !NamedIn(reserved, BusinessOf(all)) && !NamedIn(Strip(reserved), BusinessOf(all)) && !NamedIn(FullName(reserved), BusinessOf(all))
  {
    BaseDecides(reserved);
    BaseDecides(Strip(reserved));
    ReservedStripped(Strip(reserved));
    FullSharesCategory(reserved);
    if NamedIn(reserved, BusinessOf(all)) { OperableIsBusiness(all, reserved); }
    if NamedIn(Strip(reserved), BusinessOf(all)) { OperableIsBusiness(all, Strip(reserved)); }
    if NamedIn(FullName(reserved), BusinessOf(all)) { OperableIsBusiness(all, FullName(reserved)); }
  }

  /** For a covered name, being operable is being known and being a business name. */
  lemma OperableExactlyWhen(all: set<Name>, s: Name)
    requires !Uncovered(s)
    ensures NamedIn(s, BusinessOf(all)) <==> NamedIn(s, all) && CategoryOf(s) == Business
  {
    if NamedIn(s, BusinessOf(all)) { OperableIsBusiness(all, s); }
    AliasesShareCategory(s);
    FullSharesCategory(s);
  }

  datatype Verdict = Unknown | Barred | Operable

  function Judge(s: Name, all: set<Name>, operable: set<Name>): Verdict {
    if !NamedIn(s, all) then Unknown else if !NamedIn(s, operable) then Barred else Operable
  }

  /** Some form of the name (itself, stripped, stripped with the suffix) is loaded. */
  predicate Loaded(s: Name, all: set<Name>) {
    s in all || Strip(s) in all || Strip(s) + SUFFIX in all
  }

  /** Some form of the name is loaded and a business service. */
  predicate LoadedBusiness(s: Name, all: set<Name>) {
    || (s in all && CategoryOf(s) == Business)
    || (Strip(s) in all && CategoryOf(Strip(s)) == Business)
    || (Strip(s) + SUFFIX in all && CategoryOf(Strip(s) + SUFFIX) == Business)
  }

  lemma JudgeMeans(s: Name, all: set<Name>)
    ensures Judge(s, all, BusinessOf(all)) ==
            if !Loaded(s, all) then Unknown else if !LoadedBusiness(s, all) then Barred else Operable
  {
  }

  /** What the three lists say of every name, in terms of the services loaded. */
  ghost predicate ListsTell(names: seq<Name>, all: set<Name>, unknown: seq<Name>, barred: seq<Name>, fine: seq<Name>) {
    && (forall s :: s in unknown <==> s in names && !Loaded(s, all))
    && (forall s :: s in barred <==> s in names && Loaded(s, all) && !LoadedBusiness(s, all))
    && (forall s :: s in fine <==> s in names && LoadedBusiness(s, all))
  }

  /** A base without the suffix inside and its full form always land in the same list. */
  ghost predicate FormsTogether(names: seq<Name>, unknown: seq<Name>, barred: seq<Name>, fine: seq<Name>) {
    forall b | b in names && b + SUFFIX in names && !Occurs(b) ::
      && (b in unknown <==> b + SUFFIX in unknown)
      && (b in barred <==> b + SUFFIX in barred)
      && (b in fine <==> b + SUFFIX in fine)
  }

  lemma ListsMean(names: seq<Name>, all: set<Name>, unknown: seq<Name>, barred: seq<Name>, fine: seq<Name>)
    requires unknown == Keep(names, all, BusinessOf(all), Unknown)
    requires barred == Keep(names, all, BusinessOf(all), Barred)
    requires fine == Keep(names, all, BusinessOf(all), Operable)
    ensures ListsTell(names, all, unknown, barred, fine) && FormsTogether(names, unknown, barred, fine)
  {
    forall s ensures s in unknown <==> s in names && !Loaded(s, all) { NameMeans(names, all, s); }
    forall s ensures s in barred <==> s in names && Loaded(s, all) && !LoadedBusiness(s, all) { NameMeans(names, all, s); }
    forall s ensures s in fine <==> s in names && LoadedBusiness(s, all) { NameMeans(names, all, s); }
    forall b | b in names && b + SUFFIX in names && !Occurs(b)
      ensures (b in unknown <==> b + SUFFIX in unknown) && (b in barred <==> b + SUFFIX in barred) && (b in fine <==> b + SUFFIX in fine)
    {
      SameForms(b, all, BusinessOf(all));
      OneName(names, all, b);
      OneName(names, all, b + SUFFIX);
    }
  }

  lemma OneName(names: seq<Name>, all: set<Name>, s: Name)
    ensures forall v :: s in Keep(names, all, BusinessOf(all), v) <==> s in names && Judge(s, all, BusinessOf(all)) == v
  {
    forall v ensures s in Keep(names, all, BusinessOf(all), v) <==> s in names && Judge(s, all, BusinessOf(all)) == v {
      KeepMember(names, all, BusinessOf(all), v, s);
    }
  }

  lemma NameMeans(names: seq<Name>, all: set<Name>, s: Name)
    ensures s in Keep(names, all, BusinessOf(all), Unknown) <==> s in names && !Loaded(s, all)
    ensures s in Keep(names, all, BusinessOf(all), Barred) <==> s in names && Loaded(s, all) && !LoadedBusiness(s, all)
    ensures s in Keep(names, all, BusinessOf(all), Operable) <==> s in names && LoadedBusiness(s, all)
  {
    OneName(names, all, s);
    JudgeMeans(s, all);
  }

  /** A base and its full form stand for the same services. */
  lemma SameForms(b: Name, all: set<Name>, operable: set<Name>)
    requires !Occurs(b)
    ensures Judge(b, all, operable) == Judge(b + SUFFIX, all, operable)
  {
    StripPlain(b);
    StripAppended(b);
  }

  /** The names with this verdict, in order. */
  function Keep(names: seq<Name>, all: set<Name>, operable: set<Name>, v: Verdict): seq<Name> {
    if names == [] then []
    else if Judge(names[0], all, operable) == v then [names[0]] + Keep(names[1..], all, operable, v)
    else Keep(names[1..], all, operable, v)
  }

  lemma {:induction false} KeepOneMore(names: seq<Name>, s: Name, all: set<Name>, operable: set<Name>, v: Verdict)
    ensures Keep(names + [s], all, operable, v) ==
            Keep(names, all, operable, v) + if Judge(s, all, operable) == v then [s] else []
    decreases |names|
  {
    if names == [] {
      assert names + [s] == [s] && [s][1..] == [];
    } else {
      assert (names + [s])[1..] == names[1..] + [s];
      KeepOneMore(names[1..], s, all, operable, v);
    }
  }

  /** A list holds exactly the input's names that have its verdict. */
  lemma {:induction false} KeepMember(names: seq<Name>, all: set<Name>, operable: set<Name>, v: Verdict, s: Name)
    ensures s in Keep(names, all, operable, v) <==> s in names && Judge(s, all, operable) == v
    decreases |names|
  {
    if names != [] {
      KeepMember(names[1..], all, operable, v, s);
      assert s in names <==> s == names[0] || s in names[1..];
    }
  }

  /** The three lists lose and double nothing, keep the input's order and are pairwise disjoint. */
  lemma {:induction false} KeepSplits(names: seq<Name>, all: set<Name>, operable: set<Name>)
    ensures multiset(names) == multiset(Keep(names, all, operable, Unknown)) + multiset(Keep(names, all, operable, Barred))
                               + multiset(Keep(names, all, operable, Operable))
    ensures forall v :: StruckOut(Keep(names, all, operable, v), names)
    ensures forall s, v, w | s in Keep(names, all, operable, v) && s in Keep(names, all, operable, w) :: v == w
  {
    KeepCounts(names, all, operable);
    forall v ensures StruckOut(Keep(names, all, operable, v), names) {
      KeepStrikesOut(names, all, operable, v);
    }
    forall s, v, w | s in Keep(names, all, operable, v) && s in Keep(names, all, operable, w) ensures v == w {
      KeepMember(names, all, operable, v, s);
      KeepMember(names, all, operable, w, s);
    }
  }

  lemma {:induction false} KeepCounts(names: seq<Name>, all: set<Name>, operable: set<Name>)
    ensures multiset(names) == multiset(Keep(names, all, operable, Unknown)) + multiset(Keep(names, all, operable, Barred))
                               + multiset(Keep(names, all, operable, Operable))
    decreases |names|
  {
    if names != [] {
      KeepCounts(names[1..], all, operable);
      assert names == [names[0]] + names[1..];
      KeepFirst(names, all, operable, Unknown);
      KeepFirst(names, all, operable, Barred);
      KeepFirst(names, all, operable, Operable);
    }
  }

  lemma KeepFirst(names: seq<Name>, all: set<Name>, operable: set<Name>, v: Verdict)
    requires names != []
    ensures multiset(Keep(names, all, operable, v)) ==
            (if Judge(names[0], all, operable) == v then multiset{names[0]} else multiset{}) + multiset(Keep(names[1..], all, operable, v))
  {
  }

  lemma {:induction false} KeepStrikesOut(names: seq<Name>, all: set<Name>, operable: set<Name>, v: Verdict)
    ensures StruckOut(Keep(names, all, operable, v), names)
    decreases |names|
  {
    if names != [] {
      KeepStrikesOut(names[1..], all, operable, v);
    }
  }

  class Validator {
    var allServices: set<Name>
    var operableServices: set<Name>
    var categories: map<Name, Category>

    ghost predicate Valid()
      reads this
    {
      && operableServices == BusinessOf(allServices)
      && categories.Keys == allServices
      && forall s | s in categories :: categories[s] == CategoryOf(s)
    }

    constructor (services: set<Name>)
      ensures Valid() && allServices == services
    {
      allServices, operableServices, categories := services, {}, map[];
      new;
      Classify();
    }

    method Classify()
      requires operableServices == {} && categories == map[]
      modifies this
      ensures Valid() && allServices == old(allServices)
    {
      var todo := allServices;
      while todo != {}
        invariant todo <= allServices && allServices == old(allServices)
        invariant operableServices == BusinessOf(allServices - todo)
        invariant categories.Keys == allServices - todo
        invariant forall s | s in categories :: categories[s] == CategoryOf(s)
        decreases todo
      {
        var s :| s in todo;
        todo := todo - {s};
        var category := CategoryOf(s);
        categories := categories[s := category];
        if category == Business {
          operableServices := operableServices + {s};
        }
      }
      assert allServices - todo == allServices;
    }

    predicate IsValidService(s: Name)
      reads this
    {
      NamedIn(s, allServices)
    }

    predicate IsOperableService(s: Name)
      reads this
    {
      NamedIn(s, operableServices)
    }

    /** The three lists are, in the order of the input, the names that are not known, those known but
        not operable, and those operable; together they are the input. */
    method ValidateServiceNames(names: seq<Name>)
      returns (valid: bool, invalidServices: seq<Name>, nonOperableServices: seq<Name>, validServices: seq<Name>)
      requires Valid()
      ensures invalidServices == Keep(names, allServices, operableServices, Unknown)
      ensures nonOperableServices == Keep(names, allServices, operableServices, Barred)
      ensures validServices == Keep(names, allServices, operableServices, Operable)
      ensures valid <==> forall s | s in names :: Judge(s, allServices, operableServices) == Operable
      ensures forall s | s in validServices :: CategoryOf(s) == Business
      ensures ListsTell(names, allServices, invalidServices, nonOperableServices, validServices)
      ensures FormsTogether(names, invalidServices, nonOperableServices, validServices)
    {
      invalidServices, nonOperableServices, validServices := [], [], [];
      var i := 0;
      while i < |names|
        invariant 0 <= i <= |names|
        invariant invalidServices == Keep(names[..i], allServices, operableServices, Unknown)
        invariant nonOperableServices == Keep(names[..i], allServices, operableServices, Barred)
        invariant validServices == Keep(names[..i], allServices, operableServices, Operable)
      {
        var s := names[i];
        assert names[..i + 1] == names[..i] + [s];
        KeepOneMore(names[..i], s, allServices, operableServices, Unknown);
        KeepOneMore(names[..i], s, allServices, operableServices, Barred);
        KeepOneMore(names[..i], s, allServices, operableServices, Operable);
        i := i + 1;
        if !IsValidService(s) {
          invalidServices := invalidServices + [s];
          continue;
        }
        if !IsOperableService(s) {
          nonOperableServices := nonOperableServices + [s];
          continue;
        }
        validServices := validServices + [s];
      }
      assert names[..|names|] == names;
      valid := |invalidServices| == 0 && |nonOperableServices| == 0;
      ValidMeans(names, allServices, operableServices);
      OperableNames(names, allServices);
      ListsMean(names, allServices, invalidServices, nonOperableServices, validServices);
    }
  }

  lemma ValidMeans(names: seq<Name>, all: set<Name>, operable: set<Name>)
    ensures Keep(names, all, operable, Unknown) == [] && Keep(names, all, operable, Barred) == [] <==>
            forall s | s in names :: Judge(s, all, operable) == Operable
  {
    forall s, v ensures s in Keep(names, all, operable, v) <==> s in names && Judge(s, all, operable) == v {
      KeepMember(names, all, operable, v, s);
    }
    HeadIn(Keep(names, all, operable, Unknown));
    HeadIn(Keep(names, all, operable, Barred));
  }

  lemma HeadIn(names: seq<Name>)
    ensures names == [] || exists s :: s in names
  {
    if names != [] { assert names[0] in names; }
  }

  /** Nothing reported as valid is a reserved service or an alias of one. */
  lemma OperableNames(names: seq<Name>, all: set<Name>)
    ensures forall s | s in Keep(names, all, BusinessOf(all), Operable) :: CategoryOf(s) == Business
  {
    forall s | s in Keep(names, all, BusinessOf(all), Operable) ensures CategoryOf(s) == Business {
      KeepMember(names, all, BusinessOf(all), Operable, s);
      OperableIsBusiness(all, s);
    }
  }
}

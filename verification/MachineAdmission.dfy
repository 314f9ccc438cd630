/** The validating webhooks of YandexMachine and YandexMachineTemplate. */
module MachineAdmission {
  import opened Basics
  import opened FleetProtocol

  // ---- regular expressions ----

  datatype Range = Range(lo: char, hi: char)

  datatype Regex =
    | Class(ranges: seq<Range>)
    | Concat(first: Regex, second: Regex)
    | Optional(body: Regex)
    | Repeat(body: Regex, most: nat)

  predicate InClass(ranges: seq<Range>, c: char) {
    exists r <- ranges :: r.lo <= c <= r.hi
  }

  /** The regular expression matches the whole of `s`. */
  predicate Matches(r: Regex, s: string)
    decreases r, 0
  {
    match r
    case Class(ranges) => |s| == 1 && InClass(ranges, s[0])
    case Concat(a, b) => exists i | 0 <= i <= |s| :: Matches(a, s[..i]) && Matches(b, s[i..])
    case Optional(a) => s == [] || Matches(a, s)
    case Repeat(a, most) => MatchesUpTo(a, most, s)
  }

  /** `s` is at most `most` matches of `r`, one after the other. */
  predicate MatchesUpTo(r: Regex, most: nat, s: string)
    decreases r, most + 1
  {
    s == [] || (most > 0 && exists i | 0 <= i <= |s| :: Matches(r, s[..i]) && MatchesUpTo(r, most - 1, s[i..]))
  }

  const LOWER := [Range('a', 'z')]
  const LOWER_DIGIT := [Range('a', 'z'), Range('0', '9')]
  const LOWER_DIGIT_HYPHEN := [Range('-', '-'), Range('a', 'z'), Range('0', '9')]

  /** A letter, optionally followed by up to `inner` characters and a letter or digit. */
  function BoundedName(inner: nat): Regex {
    Concat(Class(LOWER), Optional(Concat(Repeat(Class(LOWER_DIGIT_HYPHEN), inner), Class(LOWER_DIGIT))))
  }

  const NAME_REGEX := BoundedName(55)

  /** A label of a domain name in lower case, after the grammar of RFC 1035, section 2.3.1. */
  const LABEL_REGEX := BoundedName(61)

  predicate IsLower(c: char) { 'a' <= c <= 'z' }

  predicate IsLowerDigit(c: char) { IsLower(c) || '0' <= c <= '9' }

  predicate IsLowerDigitHyphen(c: char) { IsLowerDigit(c) || c == '-' }

  lemma ClassesMean(c: char)
    ensures InClass(LOWER, c) <==> IsLower(c)
    ensures InClass(LOWER_DIGIT, c) <==> IsLowerDigit(c)
    ensures InClass(LOWER_DIGIT_HYPHEN, c) <==> IsLowerDigitHyphen(c)
  {
    assert LOWER[0] == Range('a', 'z') && LOWER_DIGIT[0] == Range('a', 'z') && LOWER_DIGIT[1] == Range('0', '9');
    assert LOWER_DIGIT_HYPHEN[0] == Range('-', '-') && LOWER_DIGIT_HYPHEN[1] == Range('a', 'z')
           && LOWER_DIGIT_HYPHEN[2] == Range('0', '9');
  }

  lemma {:induction false} RepeatedClass(ranges: seq<Range>, most: nat, s: string)
    ensures MatchesUpTo(Class(ranges), most, s) <==> |s| <= most && forall c <- s :: InClass(ranges, c)
    decreases most
  {
    if s != [] && most > 0 {
      RepeatedClass(ranges, most - 1, s[1..]);
      assert s == [s[0]] + s[1..];
      assert Matches(Class(ranges), s[..1]) <==> InClass(ranges, s[0]);
      if MatchesUpTo(Class(ranges), most, s) {
        var i :| 0 <= i <= |s| && Matches(Class(ranges), s[..i]) && MatchesUpTo(Class(ranges), most - 1, s[i..]);
        assert i == 1;
      }
    }
  }

  /** The part after the first letter. */
  lemma TailMatches(inner: nat, s: string)
    ensures Matches(Concat(Repeat(Class(LOWER_DIGIT_HYPHEN), inner), Class(LOWER_DIGIT)), s) <==>
            1 <= |s| <= inner + 1 && IsLowerDigit(s[|s| - 1]) && forall c <- s :: IsLowerDigitHyphen(c)
  {
    var r := Repeat(Class(LOWER_DIGIT_HYPHEN), inner);
    forall c ensures InClass(LOWER_DIGIT_HYPHEN, c) <==> IsLowerDigitHyphen(c)
             ensures InClass(LOWER_DIGIT, c) <==> IsLowerDigit(c)
    {
      ClassesMean(c);
    }
    if s != [] {
      var k := |s| - 1;
      RepeatedClass(LOWER_DIGIT_HYPHEN, inner, s[..k]);
      assert s == s[..k] + [s[k]];
      assert s[k..] == [s[k]];
      assert Matches(r, s[..k]) <==> MatchesUpTo(Class(LOWER_DIGIT_HYPHEN), inner, s[..k]);
    }
  }

  /** What the expression accepts: 1 to `inner + 2` characters of [-a-z0-9], the first a letter,
      the last a letter or a digit. */
  lemma BoundedNameMatchesExactly(inner: nat, s: string)
    ensures Matches(BoundedName(inner), s) <==>
            && 1 <= |s| <= inner + 2
            && IsLower(s[0]) && IsLowerDigit(s[|s| - 1])
            && forall c <- s :: IsLowerDigitHyphen(c)
  {
    var tail := Concat(Repeat(Class(LOWER_DIGIT_HYPHEN), inner), Class(LOWER_DIGIT));
    if s != [] {
      ClassesMean(s[0]);
      TailMatches(inner, s[1..]);
      assert s == [s[0]] + s[1..];
      assert s[..1] == [s[0]];
      assert Matches(Class(LOWER), s[..1]) <==> IsLower(s[0]);
      assert Matches(Optional(tail), s[1..]) <==> s[1..] == [] || Matches(tail, s[1..]);
    }
  }

  predicate IsSuffix(x: string) { |x| == 5 && forall c <- x :: IsLowerDigit(c) }

  /** A template name followed by a hyphen and the five characters the machine name generator
      appends is a legal label. Among names that do not end in a hyphen, no other name is. */
  lemma {:induction false} TemplateNamesLeaveRoom(name: string, suffix: string)
    requires IsSuffix(suffix)
    ensures Matches(NAME_REGEX, name) ==> Matches(LABEL_REGEX, name + "-" + suffix) && |name + "-" + suffix| <= 63
    ensures name != [] && name[|name| - 1] != '-' ==>
              (Matches(NAME_REGEX, name) <==> Matches(LABEL_REGEX, name + "-" + suffix))
  {
    var full := name + "-" + suffix;
    BoundedNameMatchesExactly(55, name);
    BoundedNameMatchesExactly(61, full);
    assert full[|full| - 1] == suffix[4];
    assert forall c <- name :: c in full;
    assert name != [] ==> full[0] == name[0] && name[|name| - 1] in name;
  }

  // ---- YandexMachine updates ----

  /** A value of an unstructured object. */
  datatype Json = Text(s: string) | Flag(b: bool) | Items(xs: seq<map<string, Json>>)

  const PROVIDER_ID_KEY := "providerID"

  function InterfaceFields(x: Interface): map<string, Json> {
    map["subnetID" := Text(x.subnet)] + if x.publicIp.Some? then map["hasPublicIP" := Flag(x.publicIp.value)] else map[]
  }

  function InterfaceItems(xs: seq<Interface>): seq<map<string, Json>> {
    seq(|xs|, i requires 0 <= i < |xs| => InterfaceFields(xs[i]))
  }

  /** The spec as an unstructured object; an absent provider id leaves no key. */
  function Fields(spec: MachineSpec): map<string, Json> {
    map["networkInterfaces" := Items(InterfaceItems(spec.interfaces)), "others" := Text(spec.others)]
    + if spec.providerId.Some? then map[PROVIDER_ID_KEY := Text(spec.providerId.value)] else map[]
  }

  lemma InterfaceFieldsInjective(a: Interface, b: Interface)
    requires InterfaceFields(a) == InterfaceFields(b)
    ensures a == b
  {
    assert InterfaceFields(a)["subnetID"] == InterfaceFields(b)["subnetID"];
    assert a.publicIp.Some? <==> "hasPublicIP" in InterfaceFields(a);
    if a.publicIp.Some? {
      assert InterfaceFields(a)["hasPublicIP"] == InterfaceFields(b)["hasPublicIP"];
    }
  }

  lemma InterfaceItemsInjective(xs: seq<Interface>, ys: seq<Interface>)
    requires InterfaceItems(xs) == InterfaceItems(ys)
    ensures xs == ys
  {
    assert |xs| == |InterfaceItems(xs)| == |InterfaceItems(ys)| == |ys|;
    forall i | 0 <= i < |xs| ensures xs[i] == ys[i] {
      assert InterfaceItems(xs)[i] == InterfaceItems(ys)[i];
      InterfaceFieldsInjective(xs[i], ys[i]);
    }
  }

  /** Comparing the unstructured specs without the provider id decides the comparison of the
      specs without it. */
  lemma FieldsDecide(a: MachineSpec, b: MachineSpec)
    ensures Fields(a) - {PROVIDER_ID_KEY} == Fields(b) - {PROVIDER_ID_KEY} <==> AdmitsMachineUpdate(a, b)
    ensures Fields(a) == Fields(b) <==> a == b
  {
    var fa, fb := Fields(a) - {PROVIDER_ID_KEY}, Fields(b) - {PROVIDER_ID_KEY};
    assert PROVIDER_ID_KEY !in ["networkInterfaces", "others"];
    assert fa == map["networkInterfaces" := Items(InterfaceItems(a.interfaces)), "others" := Text(a.others)];
    assert fb == map["networkInterfaces" := Items(InterfaceItems(b.interfaces)), "others" := Text(b.others)];
    if fa == fb {
      assert fa["networkInterfaces"] == fb["networkInterfaces"] && fa["others"] == fb["others"];
      InterfaceItemsInjective(a.interfaces, b.interfaces);
    }
    if Fields(a) == Fields(b) {
      assert a.providerId.Some? <==> PROVIDER_ID_KEY in Fields(a);
      assert a.providerId.Some? ==> Fields(a)[PROVIDER_ID_KEY] == Fields(b)[PROVIDER_ID_KEY];
    }
  }

  /** An object converted for comparison. */
  class Unstructured {
    var spec: map<string, Json>

    constructor (spec: MachineSpec)
      ensures this.spec == Fields(spec)
    { this.spec := Fields(spec); }

    method Delete(key: string)
      modifies this
      ensures spec == old(spec) - {key}
    { spec := spec - {key}; }
  }

  datatype SpecError = SpecModified

  method ValidateMachineUpdate(old_: MachineSpec, new_: MachineSpec) returns (err: Option<SpecError>)
    ensures err.None? <==> AdmitsMachineUpdate(old_, new_)
  {
    var newMachine := new Unstructured(new_);
    var oldMachine := new Unstructured(old_);
    oldMachine.Delete(PROVIDER_ID_KEY);
    newMachine.Delete(PROVIDER_ID_KEY);
    FieldsDecide(old_, new_);
    return if oldMachine.spec != newMachine.spec then Some(SpecModified) else None;
  }

  /** Whatever updates were admitted, the interfaces, and with them the subnet a target is
      registered and deregistered with, are those of the first version. */
  lemma {:induction false} HistoryKeepsInterfaces(history: seq<MachineSpec>, i: nat)
    requires i < |history|
    requires forall k | 0 < k < |history| :: AdmitsMachineUpdate(history[k - 1], history[k])
    ensures history[i].(providerId := history[0].providerId) == history[0]
  {
    if i > 0 {
      HistoryKeepsInterfaces(history, i - 1);
      assert AdmitsMachineUpdate(history[i - 1], history[i]);
    }
  }

  // ---- YandexMachineTemplate ----

  datatype Template = Template(name: string, spec: MachineSpec)

  datatype TemplateError = ProviderIdForbidden | NameInvalid

  predicate AdmitsTemplate(t: Template) { t.spec.providerId.None? && Matches(NAME_REGEX, t.name) }

  method ValidateTemplateCreate(t: Template) returns (errs: seq<TemplateError>)
    ensures errs == [] <==> AdmitsTemplate(t)
    ensures ProviderIdForbidden in errs <==> t.spec.providerId.Some?
    ensures NameInvalid in errs <==> !Matches(NAME_REGEX, t.name)
  {
    errs := [];
    if t.spec.providerId.Some? {
      errs := errs + [ProviderIdForbidden];
    }
    if !Matches(NAME_REGEX, t.name) {
      errs := errs + [NameInvalid];
    }
  }

  method ValidateTemplateUpdate(old_: Template, new_: Template) returns (err: Option<SpecError>)
    ensures err.None? <==> new_.spec == old_.spec
  {
    var newTemplate := new Unstructured(new_.spec);
    var oldTemplate := new Unstructured(old_.spec);
    FieldsDecide(old_.spec, new_.spec);
    return if oldTemplate.spec != newTemplate.spec then Some(SpecModified) else None;
  }

  /** A template that was admitted and then updated any number of times; names never change. */
  predicate TemplateHistory(history: seq<Template>) {
    && history != [] && AdmitsTemplate(history[0])
    && forall k | 0 < k < |history| :: history[k].spec == history[k - 1].spec && history[k].name == history[k - 1].name
  }

  /** No version of an admitted template carries a provider id, so the machines made from it
      start the way a run of the fleet relies on, and their names are legal labels. */
  lemma {:induction false} TemplatesNeverCarryProviderId(history: seq<Template>, i: nat)
    requires TemplateHistory(history) && i < |history|
    ensures history[i] == history[0] && AdmitsTemplate(history[i])
    ensures forall f, uid, cp :: Assumed(f, NewMachine(uid, cp, history[i].spec))
    ensures forall suffix | IsSuffix(suffix) :: Matches(LABEL_REGEX, history[i].name + "-" + suffix)
  {
    if i > 0 {
      TemplatesNeverCarryProviderId(history, i - 1);
      assert history[i].spec == history[i - 1].spec && history[i].name == history[i - 1].name;
    } else {
      forall suffix | IsSuffix(suffix) ensures Matches(LABEL_REGEX, history[0].name + "-" + suffix) {
        TemplateNamesLeaveRoom(history[0].name, suffix);
      }
    }
  }
}

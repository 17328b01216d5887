/**
 * Request parameters and `validate_params`
 * (app/controllers/api/v2/registrations_controller.rb, lines 67-76).
 *
 * A parameter value is a string, or nil for a key given without a value
 * (nested arrays and hashes are not modelled). A Ruby hash keeps its keys
 * unique and in insertion order; `params` is modelled as the ordered
 * sequence of its entries, and `Params` carries the uniqueness.
 */
module Params {
  import opened Wrappers
  import opened Envelope

  /**
   * A key and its value. A query-string key given without `=` arrives with
   * the value nil.
   */
  type Entry = (string, Option<string>)

  predicate UniqueKeys(ps: seq<Entry>)
  {
    forall i, j :: 0 <= i < j < |ps| ==> ps[i].0 != ps[j].0
  }

  /** A request's parameter hash: entries in order, no key twice. */
  type Params = ps: seq<Entry> | UniqueKeys(ps) witness []

  /** The four keys `register` demands, in the order the source lists them. */
  const REQUIRED: seq<string> := ["name", "certname", "environment_id", "hostgroup_id"]

  const MISSING_PREFIX: string := "You did not specify a required parameter: "

  function Keys(ps: seq<Entry>): (ks: seq<string>)
    ensures |ks| == |ps| && forall i :: 0 <= i < |ps| ==> ks[i] == ps[i].0
  {
    seq(|ps|, i requires 0 <= i < |ps| => ps[i].0)
  }

  predicate Distinct(s: seq<string>)
  {
    forall i, j :: 0 <= i < j < |s| ==> s[i] != s[j]
  }

  /** True when every key `register` demands is a key of `ps`. */
  predicate HasRequiredKeys(ps: seq<Entry>)
  {
    forall k :: k in REQUIRED ==> k in Keys(ps)
  }

  /** `params[key]` for a key that is present. */
  function Lookup(ps: Params, key: string): (v: Option<string>)
    requires key in Keys(ps)
    ensures (key, v) in ps
  {
    if ps[0].0 == key then ps[0].1 else Lookup(ps[1..], key)
  }

  /** `params.select { |k, v| required.include?(k) }`: the entries whose key is required, in order. */
  function Select(ps: Params): (r: Params)
    ensures forall e :: e in r <==> e in ps && e.0 in REQUIRED
    ensures forall k :: k in Keys(r) <==> k in Keys(ps) && k in REQUIRED
  {
    if ps == [] then []
    else
      var rest := Select(ps[1..]);
      if ps[0].0 in REQUIRED then
        assert ps == [ps[0]] + ps[1..];
        PrependKeepsUnique(ps[0], rest, ps[1..]);
        [ps[0]] + rest
      else
        rest
  }

  /** Putting a hash's first entry back in front of entries taken from the rest keeps the keys unique. */
  lemma PrependKeepsUnique(first: Entry, rest: Params, tail: Params)
    requires UniqueKeys([first] + tail)
    requires forall k :: k in Keys(rest) ==> k in Keys(tail)
    ensures UniqueKeys([first] + rest)
  {
    var whole := [first] + tail;
    forall j | 0 <= j < |tail| ensures tail[j].0 != first.0 {
      assert whole[0] == first && whole[j + 1] == tail[j];
    }
    assert first.0 !in Keys(tail);
    var r := [first] + rest;
    forall i, j | 0 <= i < j < |r| ensures r[i].0 != r[j].0 {
      assert r[j] == rest[j - 1] && Keys(rest)[j - 1] == r[j].0;
      if i > 0 {
        assert r[i] == rest[i - 1];
      }
    }
  }

  /**
   * Ruby's `String#inspect` for the characters it escapes among printable
   * ones: the quote, the backslash, and a `#` that would otherwise start an
   * interpolation (`#{`, `#$`, `#@`).
   */
  function Escape(s: string): string
  {
    if s == [] then ""
    else EscapePrefix(s) + Escape(s[1..])
  }

  /** A string as `inspect` writes it: escaped, between double quotes. */
  function Quote(s: string): string
  {
    "\"" + Escape(s) + "\""
  }

  /** A parameter value as `inspect` writes it: `nil`, or the quoted string. */
  function InspectValue(v: Option<string>): string
  {
    match v
    case None => "nil"
    case Some(s) => Quote(s)
  }

  function InspectEntry(e: Entry): string
  {
    Quote(e.0) + "=>" + InspectValue(e.1)
  }

  function InspectEntries(ps: seq<Entry>): string
  {
    if ps == [] then ""
    else if |ps| == 1 then InspectEntry(ps[0])
    else InspectEntry(ps[0]) + ", " + InspectEntries(ps[1..])
  }

  /** `"#{hash}"`: a hash interpolated into a string, `{"k"=>"v", "k2"=>nil, ...}`. */
  function Inspect(ps: seq<Entry>): (r: string)
    ensures |r| >= 2 && r[0] == '{' && r[|r| - 1] == '}'
  {
    "{" + InspectEntries(ps) + "}"
  }

  /**
   * Reads a quoted string whose opening quote is already consumed: its text,
   * with escapes undone, and what follows the closing quote.
   */
  function ReadQuoted(s: string): (r: Option<(string, string)>)
    ensures r.Some? ==> |r.value.1| < |s|
  {
    if s == [] then None
    else if s[0] == '"' then Some(("", s[1..]))
    else if s[0] == '\\' && |s| >= 2 then
      match ReadQuoted(s[2..])
      case None => None
      case Some(p) => Some(([s[1]] + p.0, p.1))
    else
      match ReadQuoted(s[1..])
      case None => None
      case Some(p) => Some(([s[0]] + p.0, p.1))
  }

  /** Reads a value written by `InspectValue`, and what follows it. */
  function ReadValue(s: string): (r: Option<(Option<string>, string)>)
    ensures r.Some? ==> |r.value.1| < |s|
  {
    if |s| >= 3 && s[..3] == "nil" then Some((None, s[3..]))
    else if s != [] && s[0] == '"' then
      match ReadQuoted(s[1..])
      case None => None
      case Some(p) => Some((Some(p.0), p.1))
    else None
  }

  /** Reads an entry written by `InspectEntry`, and what follows it. */
  function ReadEntry(s: string): (r: Option<(Entry, string)>)
    ensures r.Some? ==> |r.value.1| < |s|
  {
    if s == [] || s[0] != '"' then None
    else
      match ReadQuoted(s[1..])
      case None => None
      case Some(p) =>
        var rest := p.1;
        if |rest| >= 2 && rest[..2] == "=>" then
          match ReadValue(rest[2..])
          case None => None
          case Some(q) => Some(((p.0, q.0), q.1))
        else None
  }

  /** Reads the entries of a non-empty hash text up to and including its closing brace. */
  function ReadEntries(s: string): Option<seq<Entry>>
    decreases |s|
  {
    match ReadEntry(s)
    case None => None
    case Some(p) =>
      var rest := p.1;
      if rest == "}" then Some([p.0])
      else if |rest| >= 2 && rest[..2] == ", " then
        match ReadEntries(rest[2..])
        case None => None
        case Some(es) => Some([p.0] + es)
      else None
  }

  /** Reads a hash back out of the text `Inspect` wrote. */
  function ParseInspect(s: string): Option<seq<Entry>>
  {
    if s == "{}" then Some([])
    else if s != [] && s[0] == '{' then ReadEntries(s[1..])
    else None
  }

  lemma {:induction false} ReadQuotedEscape(x: string, t: string)
    requires t != [] && t[0] == '"'
    ensures ReadQuoted(Escape(x) + t) == Some((x, t[1..]))
  {
    if x == [] {
      assert Escape(x) + t == t;
    } else {
      ReadQuotedEscape(x[1..], t);
      ReadQuotedEscapeStep(x, t);
    }
  }

  lemma ReadQuotedEscapeStep(x: string, t: string)
    requires x != [] && t != []
    requires ReadQuoted(Escape(x[1..]) + t) == Some((x[1..], t[1..]))
    ensures ReadQuoted(Escape(x) + t) == Some((x, t[1..]))
  {
    EscapeHead(x, t);
    ReadQuotedPrefix(x, Escape(x[1..]) + t, t[1..]);
  }

  lemma ReadQuotedPrefix(x: string, e: string, tail: string)
    requires x != []
    requires ReadQuoted(e) == Some((x[1..], tail))
    ensures ReadQuoted(EscapePrefix(x) + e) == Some((x, tail))
  {
    if EscapedAt(x) {
      ReadQuotedEscaped(x[0], e, x[1..], tail);
    } else {
      ReadQuotedPlain(x[0], e, x[1..], tail);
    }
    assert [x[0]] + x[1..] == x;
  }

  /** True when `Escape` writes the first character of `x` behind a backslash. */
  predicate EscapedAt(x: string)
    requires x != []
  {
    x[0] == '"' || x[0] == '\\' || (x[0] == '#' && |x| >= 2 && (x[1] == '{' || x[1] == '$' || x[1] == '@'))
  }

  /** What `Escape` writes for the first character of `x`. */
  function EscapePrefix(x: string): string
    requires x != []
  {
    if EscapedAt(x) then ['\\', x[0]] else [x[0]]
  }

  lemma EscapeHead(x: string, t: string)
    requires x != []
    ensures Escape(x) + t == EscapePrefix(x) + (Escape(x[1..]) + t)
  {
  }

  lemma ReadQuotedEscaped(c: char, e: string, text: string, tail: string)
    requires ReadQuoted(e) == Some((text, tail))
    ensures ReadQuoted(['\\', c] + e) == Some(([c] + text, tail))
  {
    assert (['\\', c] + e)[2..] == e;
  }

  lemma ReadQuotedPlain(c: char, e: string, text: string, tail: string)
    requires c != '"' && c != '\\'
    requires ReadQuoted(e) == Some((text, tail))
    ensures ReadQuoted([c] + e) == Some(([c] + text, tail))
  {
    assert ([c] + e)[1..] == e;
  }

  /** Quoting is an opening quote, the escaped text and a closing quote. */
  lemma QuoteThen(x: string, tail: string)
    ensures Quote(x) + tail == "\"" + (Escape(x) + ("\"" + tail))
  {
  }

  /** After the opening quote, an escaped string and its closing quote read back as the string. */
  lemma ReadQuotedClosed(x: string, tail: string)
    ensures ReadQuoted(Escape(x) + ("\"" + tail)) == Some((x, tail))
  {
    ReadQuotedEscape(x, "\"" + tail);
    assert ("\"" + tail)[1..] == tail;
  }

  lemma ReadValueInspect(v: Option<string>, tail: string)
    ensures ReadValue(InspectValue(v) + tail) == Some((v, tail))
  {
    match v
    case None =>
      var s := "nil" + tail;
      assert s[..3] == "nil" && s[3..] == tail;
    case Some(x) =>
      QuoteThen(x, tail);
      ReadQuotedClosed(x, tail);
      ReadValueQuoted(Escape(x) + ("\"" + tail), x, tail);
  }

  lemma ReadValueQuoted(body: string, x: string, tail: string)
    requires ReadQuoted(body) == Some((x, tail))
    ensures ReadValue("\"" + body) == Some((Some(x), tail))
  {
    assert ("\"" + body)[1..] == body;
  }

  lemma ReadEntryInspect(e: Entry, tail: string)
    ensures ReadEntry(InspectEntry(e) + tail) == Some((e, tail))
  {
    var after := InspectValue(e.1) + tail;
    var rest := "=>" + after;
    assert InspectEntry(e) + tail == Quote(e.0) + rest;
    QuoteThen(e.0, rest);
    ReadQuotedClosed(e.0, rest);
    ReadValueInspect(e.1, tail);
    ReadEntryFrom(Escape(e.0) + ("\"" + rest), e.0, after, e.1, tail);
  }

  lemma ReadEntryFrom(body: string, key: string, after: string, value: Option<string>, tail: string)
    requires ReadQuoted(body) == Some((key, "=>" + after))
    requires ReadValue(after) == Some((value, tail))
    ensures ReadEntry("\"" + body) == Some(((key, value), tail))
  {
    assert ("\"" + body)[1..] == body;
    var rest := "=>" + after;
    assert rest[..2] == "=>" && rest[2..] == after;
  }

  lemma {:induction false} ReadEntriesInspect(ps: seq<Entry>)
    requires ps != []
    ensures ReadEntries(InspectEntries(ps) + "}") == Some(ps)
  {
    if |ps| == 1 {
      ReadEntryInspect(ps[0], "}");
      assert [ps[0]] == ps;
    } else {
      ReadEntriesInspect(ps[1..]);
      ReadEntriesInspectStep(ps);
    }
  }

  lemma ReadEntriesInspectStep(ps: seq<Entry>)
    requires |ps| > 1
    requires ReadEntries(InspectEntries(ps[1..]) + "}") == Some(ps[1..])
    ensures ReadEntries(InspectEntries(ps) + "}") == Some(ps)
  {
    var later := InspectEntries(ps[1..]) + "}";
    InspectEntriesCons(ps);
    ReadEntryInspect(ps[0], ", " + later);
    ReadEntriesCons(InspectEntries(ps) + "}", ps, later);
  }

  lemma InspectEntriesCons(ps: seq<Entry>)
    requires |ps| > 1
    ensures InspectEntries(ps) + "}" == InspectEntry(ps[0]) + (", " + (InspectEntries(ps[1..]) + "}"))
  {
    var first, later := InspectEntry(ps[0]), InspectEntries(ps[1..]);
    assert InspectEntries(ps) == first + ", " + later;
    AppendAssociative(first + ", ", later, "}");
    AppendAssociative(first, ", ", later + "}");
  }

  /** Concatenation regrouped to the right. */
  lemma AppendAssociative<T>(a: seq<T>, b: seq<T>, c: seq<T>)
    ensures (a + b) + c == a + (b + c)
  {
  }

  lemma ReadEntriesCons(s: string, ps: seq<Entry>, later: string)
    requires ps != []
    requires ReadEntry(s) == Some((ps[0], ", " + later))
    requires ReadEntries(later) == Some(ps[1..])
    ensures ReadEntries(s) == Some(ps)
  {
    var rest := ", " + later;
    assert rest != "}" && rest[..2] == ", " && rest[2..] == later;
    assert [ps[0]] + ps[1..] == ps;
  }

  /** The hash can be read back from the text `Inspect` writes: nothing of it is lost. */
  lemma InspectRoundTrip(ps: seq<Entry>)
    ensures ParseInspect(Inspect(ps)) == Some(ps)
  {
    if ps != [] {
      var body := InspectEntries(ps);
      ReadEntriesInspect(ps);
      InspectEntriesNonEmpty(ps);
      ParseInspectFrom(Inspect(ps), body);
    }
  }

  lemma InspectEntriesNonEmpty(ps: seq<Entry>)
    requires ps != []
    ensures InspectEntries(ps) != []
  {
    assert |InspectEntry(ps[0])| > 0;
  }

  lemma ParseInspectFrom(s: string, body: string)
    requires s == "{" + body + "}" && body != []
    ensures ParseInspect(s) == ReadEntries(body + "}")
  {
    assert |s| > 2;
    assert s[1..] == body + "}";
  }

  /** Two hashes that print the same are the same hash, entries and order included. */
  lemma InspectInjective(ps1: seq<Entry>, ps2: seq<Entry>)
    requires Inspect(ps1) == Inspect(ps2)
    ensures ps1 == ps2
  {
    InspectRoundTrip(ps1);
    InspectRoundTrip(ps2);
  }

  /** The exception `validate_params` raises, carrying the filtered hash for diagnosis. */
  function MissingParameter(filtered: Params): (err: Error)
    ensures err.MissingAttributeError?
    ensures |err.message| >= |MISSING_PREFIX|
    ensures err.message[..|MISSING_PREFIX|] == MISSING_PREFIX
    ensures err.message[|MISSING_PREFIX|..] == Inspect(filtered)
  {
    MissingAttributeError(MISSING_PREFIX + Inspect(filtered))
  }

  /** The hash in the message can be read back: the client learns exactly which required keys it sent. */
  lemma MissingParameterNamesHash(filtered: Params)
    ensures ParseInspect(MissingParameter(filtered).message[|MISSING_PREFIX|..]) == Some(filtered)
  {
    InspectRoundTrip(filtered);
  }

  /**
   * `validate_params`: keep only the required keys, and raise unless the
   * sorted filtered keys equal the sorted required keys. Two lists sort to
   * the same list exactly when they hold the same multiset of elements.
   */
  function ValidateParams(ps: Params): (r: Result<Params, Error>)
    ensures r.Success? <==> HasRequiredKeys(ps)
    ensures r.Success? ==> r.value == Select(ps)
    ensures r.Failure? ==> r.error == MissingParameter(Select(ps))
  {
    var filtered := Select(ps);
    SortedKeysMatchIff(ps);
    if multiset(Keys(filtered)) == multiset(REQUIRED) then Success(filtered)
    else Failure(MissingParameter(filtered))
  }

  lemma {:induction false} DistinctCounts(s: seq<string>)
    requires Distinct(s)
    ensures forall x :: multiset(s)[x] == if x in s then 1 else 0
  {
    if s != [] {
      DistinctCounts(s[1..]);
      assert s == [s[0]] + s[1..];
      assert multiset(s) == multiset([s[0]]) + multiset(s[1..]);
      assert s[0] !in s[1..];
    }
  }

  /** The filtered keys sort to the required keys exactly when every required key is present. */
  lemma SortedKeysMatchIff(ps: Params)
    ensures multiset(Keys(Select(ps))) == multiset(REQUIRED) <==> HasRequiredKeys(ps)
  {
    if HasRequiredKeys(ps) {
      AllPresentSortsEqual(ps);
    }
    if multiset(Keys(Select(ps))) == multiset(REQUIRED) {
      SortsEqualAllPresent(ps);
    }
  }

  lemma AllPresentSortsEqual(ps: Params)
    requires HasRequiredKeys(ps)
    ensures multiset(Keys(Select(ps))) == multiset(REQUIRED)
  {
    var sel := Select(ps);
    var ks := Keys(sel);
    assert Distinct(ks) by {
      assert UniqueKeys(sel);
    }
    DistinctCounts(ks);
    RequiredDistinct();
    DistinctCounts(REQUIRED);
    forall x ensures multiset(ks)[x] == multiset(REQUIRED)[x] {
      assert x in ks <==> x in REQUIRED;
    }
  }

  lemma RequiredDistinct()
    ensures Distinct(REQUIRED)
  {
    assert REQUIRED[0] != REQUIRED[1] && REQUIRED[0] != REQUIRED[2] && REQUIRED[0] != REQUIRED[3];
    assert REQUIRED[1] != REQUIRED[2] && REQUIRED[1] != REQUIRED[3];
    assert REQUIRED[2] != REQUIRED[3];
  }

  lemma SortsEqualAllPresent(ps: Params)
    requires multiset(Keys(Select(ps))) == multiset(REQUIRED)
    ensures HasRequiredKeys(ps)
  {
    var ks := Keys(Select(ps));
    forall k | k in REQUIRED ensures k in Keys(ps) {
      assert k in multiset(REQUIRED);
      assert k in multiset(ks);
    }
  }

  /**
   * On success the validated hash holds the four required keys and nothing
   * else, each with the value the request gave it.
   */
  lemma ValidatedHoldsExactlyRequired(ps: Params)
    requires HasRequiredKeys(ps)
    ensures ValidateParams(ps).Success?
    ensures var v := ValidateParams(ps).value;
      && |v| == |REQUIRED|
      && (forall k :: k in Keys(v) <==> k in REQUIRED)
      && (forall k :: k in REQUIRED ==> Lookup(v, k) == Lookup(ps, k))
  {
    var v := ValidateParams(ps).value;
    SortedKeysMatchIff(ps);
    assert |multiset(Keys(v))| == |multiset(REQUIRED)|;
    forall k | k in REQUIRED ensures Lookup(v, k) == Lookup(ps, k) {
      LookupUnique(ps, k, Lookup(v, k));
    }
  }

  /** In a hash, an entry's key determines its value. */
  lemma LookupUnique(ps: Params, key: string, value: Option<string>)
    requires (key, value) in ps
    ensures key in Keys(ps) && Lookup(ps, key) == value
  {
    var i :| 0 <= i < |ps| && ps[i] == (key, value);
    assert Keys(ps)[i] == key;
    if ps[0].0 != key {
      assert ps[1..][i - 1] == ps[i];
      LookupUnique(ps[1..], key, value);
    }
  }

  /**
   * Validation looks at keys, never at values: two requests with the same
   * keys get the same verdict, whatever their values (an empty string or nil
   * included), and succeed with hashes over the same keys.
   */
  lemma ValidationIgnoresValues(ps1: Params, ps2: Params)
    requires forall k :: k in Keys(ps1) <==> k in Keys(ps2)
    ensures ValidateParams(ps1).Success? == ValidateParams(ps2).Success?
    ensures ValidateParams(ps1).Success? ==>
      forall k :: k in Keys(ValidateParams(ps1).value) <==> k in Keys(ValidateParams(ps2).value)
  {
  }

  /** Validating an already validated hash changes nothing. */
  lemma {:induction false} ValidateParamsIdempotent(ps: Params)
    requires ValidateParams(ps).Success?
    ensures ValidateParams(ValidateParams(ps).value) == ValidateParams(ps)
  {
    var v := ValidateParams(ps).value;
    SelectIdempotent(ps);
    assert HasRequiredKeys(v);
  }

  lemma {:induction false} SelectIdempotent(ps: Params)
    ensures Select(Select(ps)) == Select(ps)
  {
    if ps != [] {
      SelectIdempotent(ps[1..]);
    }
  }
}

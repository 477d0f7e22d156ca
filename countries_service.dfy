/**
 * The country list of the countries service: the countries that have an
 * ERC20 token, each projected to the fields the clients use, and the same
 * entries keyed by country code.
 *
 * The two library tables (the world's countries and currencies) and the
 * configured token table are parameters.  Building the list runs when the
 * service is loaded; the cases in which that code throws (a country with no
 * currency, a currency missing from the table, an empty major-unit name) make
 * the whole list `None`.
 */
module CountriesService {
  import opened Wrappers
  import opened Text

  /** A country of the world table: common name, currencies, calling codes, ISO code. */
  datatype Country = Country(commonName: string, currencies: seq<string>,
                             callingCodes: seq<string>, cca2: string)

  /** A currency of the currency table: full name and the name of its major unit. */
  datatype Currency = Currency(name: string, majorName: string)

  datatype CountryEntry = CountryEntry(countryCode: string, name: string, currency: string,
                                       currencyName: string, currencyNameFull: string,
                                       erc20Token: string, phoneCode: string, flag: string)

  const FlagDir := "/images/flags/"
  const FlagExt := ".png"

  /** The path of a country's flag image. */
  function FlagImg(cca2: string): string {
    FlagDir + cca2 + FlagExt
  }

  /** The flag path determines the country code: no two countries share a flag. */
  lemma FlagImgInjective(a: string, b: string)
    ensures FlagImg(a) == FlagImg(b) ==> a == b
  {
    if FlagImg(a) == FlagImg(b) {
      assert a == FlagImg(a)[|FlagDir|..|FlagDir| + |a|];
      assert b == FlagImg(b)[|FlagDir|..|FlagDir| + |b|];
    }
  }

  /** The first letter upper-cased, the rest unchanged. */
  function Capitalize(s: string): string
    requires s != []
  {
    [UpperChar(s[0])] + s[1..]
  }

  /** `+${callingCode}` for the first calling code (`undefined` when there is none). */
  function PhoneCode(callingCodes: seq<string>): string {
    "+" + (if callingCodes == [] then "undefined" else callingCodes[0])
  }

  /** The entry can be built: the first currency is in the table with a non-empty major-unit name. */
  predicate Loadable(c: Country, currencies: map<string, Currency>) {
    c.currencies != [] && c.currencies[0] in currencies && currencies[c.currencies[0]].majorName != ""
  }

  /** The projection of one listed country, or `None` where the projection throws. */
  function MakeEntry(c: Country, tokens: map<string, string>, currencies: map<string, Currency>)
    : (r: Option<CountryEntry>)
    requires c.cca2 in tokens
    ensures r.Some? <==> Loadable(c, currencies)
  {
    if !Loadable(c, currencies) then None
    else
      var currency := currencies[c.currencies[0]];
      Some(CountryEntry(c.cca2, c.commonName, c.currencies[0], Capitalize(currency.majorName),
                        currency.name, tokens[c.cca2], PhoneCode(c.callingCodes), FlagImg(c.cca2)))
  }

  /** The countries whose code is a key of the token table, in table order. */
  function Filtered(countries: seq<Country>, tokens: map<string, string>): (r: seq<Country>)
    ensures forall c :: c in r <==> c in countries && c.cca2 in tokens
    ensures |r| <= |countries|
  {
    if countries == [] then []
    else (if countries[0].cca2 in tokens then [countries[0]] else []) + Filtered(countries[1..], tokens)
  }

  /** Filtering keeps the order: it distributes over concatenation. */
  lemma {:induction false} FilteredAppend(a: seq<Country>, b: seq<Country>, tokens: map<string, string>)
    ensures Filtered(a + b, tokens) == Filtered(a, tokens) + Filtered(b, tokens)
  {
    if a == [] {
      assert a + b == b;
    } else {
      assert (a + b)[0] == a[0];
      assert (a + b)[1..] == a[1..] + b;
      FilteredAppend(a[1..], b, tokens);
    }
  }

  /** The projections of the listed countries, or `None` if one of them throws. */
  function Entries(listed: seq<Country>, tokens: map<string, string>, currencies: map<string, Currency>)
    : (r: Option<seq<CountryEntry>>)
    requires forall c :: c in listed ==> c.cca2 in tokens
    ensures r.Some? <==> forall i :: 0 <= i < |listed| ==> Loadable(listed[i], currencies)
    ensures r.Some? ==> |r.value| == |listed|
    ensures r.Some? ==>
      forall i :: 0 <= i < |listed| ==> MakeEntry(listed[i], tokens, currencies) == Some(r.value[i])
  {
    if listed == [] then Some([])
    else
      var head := MakeEntry(listed[0], tokens, currencies);
      var tail := Entries(listed[1..], tokens, currencies);
      if head.None? || tail.None? then None
      else
        var r := [head.value] + tail.value;
        assert forall i :: 1 <= i < |listed| ==> listed[i] == listed[1..][i - 1] && r[i] == tail.value[i - 1];
        Some(r)
  }

  /** `list`: the listed countries, projected. */
  function List(countries: seq<Country>, tokens: map<string, string>, currencies: map<string, Currency>)
    : Option<seq<CountryEntry>>
  {
    Entries(Filtered(countries, tokens), tokens, currencies)
  }

  /** The list is built exactly when every country with a token can be projected. */
  lemma ListBuilt(countries: seq<Country>, tokens: map<string, string>, currencies: map<string, Currency>)
    ensures List(countries, tokens, currencies).Some? <==>
      forall c :: c in countries && c.cca2 in tokens ==> Loadable(c, currencies)
  {
    var listed := Filtered(countries, tokens);
    if forall c :: c in countries && c.cca2 in tokens ==> Loadable(c, currencies) {
      assert forall i :: 0 <= i < |listed| ==> listed[i] in listed;
    } else {
      var c :| c in countries && c.cca2 in tokens && !Loadable(c, currencies);
      assert c in listed;
    }
  }

  /**
   * Entry `i` of the list is the `i`-th country with a token: its code is a
   * token-table key and the entry's token is that key's value; the name is
   * the common name; the currency is the first listed one and its name is the
   * major-unit name capitalised; the phone code is `+` and the first calling
   * code; the flag is `FlagImg` of the code.
   */
  lemma ListEntryFields(countries: seq<Country>, tokens: map<string, string>,
                        currencies: map<string, Currency>, i: int)
    requires List(countries, tokens, currencies).Some?
    requires 0 <= i < |List(countries, tokens, currencies).value|
    ensures var c := Filtered(countries, tokens)[i];
      var e := List(countries, tokens, currencies).value[i];
      && c in countries && c.cca2 in tokens
      && e.countryCode == c.cca2 && e.name == c.commonName
      && e.erc20Token == tokens[c.cca2]
      && e.currency == c.currencies[0] && e.currency in currencies
      && e.currencyNameFull == currencies[e.currency].name
      && |currencies[e.currency].majorName| > 0
      && |e.currencyName| == |currencies[e.currency].majorName|
      && e.currencyName[0] == UpperChar(currencies[e.currency].majorName[0])
      && e.currencyName[1..] == currencies[e.currency].majorName[1..]
      && e.phoneCode == "+" + (if c.callingCodes == [] then "undefined" else c.callingCodes[0])
      && e.flag == FlagImg(e.countryCode)
  {
    var listed := Filtered(countries, tokens);
    assert listed[i] in listed;
    assert MakeEntry(listed[i], tokens, currencies) == Some(List(countries, tokens, currencies).value[i]);
  }

  /** The country codes of a list of entries. */
  function Codes(entries: seq<CountryEntry>): set<string> {
    set e | e in entries :: e.countryCode
  }

  /** Entry `i` is the last one with its country code. */
  predicate LastWithCode(entries: seq<CountryEntry>, i: int)
    requires 0 <= i < |entries|
  {
    forall j :: i < j < |entries| ==> entries[j].countryCode != entries[i].countryCode
  }

  /**
   * `collection`: the list folded, left to right, into an object keyed by
   * country code.
   */
  function Collection(entries: seq<CountryEntry>): map<string, CountryEntry> {
    if entries == [] then map[]
    else
      var last := entries[|entries| - 1];
      Collection(entries[..|entries| - 1])[last.countryCode := last]
  }

  lemma CodesSnoc(init: seq<CountryEntry>, last: CountryEntry)
    ensures Codes(init + [last]) == Codes(init) + {last.countryCode}
  {
    var all := init + [last];
    forall k | k in Codes(all) ensures k in Codes(init) + {last.countryCode} {
      var e :| e in all && e.countryCode == k;
      if e != last {
        assert e in init;
      }
    }
    forall k | k in Codes(init) ensures k in Codes(all) {
      var e :| e in init && e.countryCode == k;
      assert e in all;
    }
    assert last in all;
  }

  /** The collection's keys are exactly the list's country codes. */
  lemma {:induction false} CollectionKeys(entries: seq<CountryEntry>)
    ensures Collection(entries).Keys == Codes(entries)
  {
    if entries != [] {
      var init := entries[..|entries| - 1];
      var last := entries[|entries| - 1];
      CollectionKeys(init);
      assert entries == init + [last];
      CodesSnoc(init, last);
    }
  }

  /** The collection files each entry that is the last with its code; so a later entry wins. */
  lemma {:induction false} CollectionLaterWins(entries: seq<CountryEntry>, i: int)
    requires 0 <= i < |entries| && LastWithCode(entries, i)
    ensures entries[i].countryCode in Collection(entries)
    ensures Collection(entries)[entries[i].countryCode] == entries[i]
  {
    var init := entries[..|entries| - 1];
    var last := entries[|entries| - 1];
    if i < |entries| - 1 {
      assert entries[i].countryCode != last.countryCode;
      assert LastWithCode(init, i) by {
        forall j | i < j < |init| ensures init[j].countryCode != init[i].countryCode {
          assert init[j] == entries[j];
        }
      }
      CollectionLaterWins(init, i);
    }
  }

  /** Every value of the collection is an entry of the list filed under its own code. */
  lemma {:induction false} CollectionKeyed(entries: seq<CountryEntry>, k: string)
    requires k in Collection(entries)
    ensures Collection(entries)[k].countryCode == k && Collection(entries)[k] in entries
  {
    var init := entries[..|entries| - 1];
    var last := entries[|entries| - 1];
    if k != last.countryCode {
      CollectionKeyed(init, k);
    }
  }
}

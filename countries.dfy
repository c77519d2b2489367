/** The country-code list and the search filter of the phone-code dropdown. */
module Countries {
  import opened Text

  /** `iso` is the list key; codes are not unique. */
  datatype Country = Country(name: string, code: string, iso: string)

  const COUNTRIES: seq<Country> := [
    Country("Afghanistan", "+93", "AF"),
    Country("Albania", "+355", "AL"),
    Country("Algeria", "+213", "DZ"),
    Country("Argentina", "+54", "AR"),
    Country("Australia", "+61", "AU"),
    Country("Austria", "+43", "AT"),
    Country("Bangladesh", "+880", "BD"),
    Country("Belgium", "+32", "BE"),
    Country("Brazil", "+55", "BR"),
    Country("Canada", "+1", "CA"),
    Country("China", "+86", "CN"),
    Country("Colombia", "+57", "CO"),
    Country("Denmark", "+45", "DK"),
    Country("Egypt", "+20", "EG"),
    Country("Finland", "+358", "FI"),
    Country("France", "+33", "FR"),
    Country("Germany", "+49", "DE"),
    Country("Greece", "+30", "GR"),
    Country("Hong Kong", "+852", "HK"),
    Country("India", "+91", "IN"),
    Country("Indonesia", "+62", "ID"),
    Country("Ireland", "+353", "IE"),
    Country("Israel", "+972", "IL"),
    Country("Italy", "+39", "IT"),
    Country("Japan", "+81", "JP"),
    Country("Mexico", "+52", "MX"),
    Country("Netherlands", "+31", "NL"),
    Country("New Zealand", "+64", "NZ"),
    Country("Nigeria", "+234", "NG"),
    Country("Norway", "+47", "NO"),
    Country("Pakistan", "+92", "PK"),
    Country("Philippines", "+63", "PH"),
    Country("Poland", "+48", "PL"),
    Country("Portugal", "+351", "PT"),
    Country("Qatar", "+974", "QA"),
    Country("Russia", "+7", "RU"),
    Country("Saudi Arabia", "+966", "SA"),
    Country("Singapore", "+65", "SG"),
    Country("South Africa", "+27", "ZA"),
    Country("South Korea", "+82", "KR"),
    Country("Spain", "+34", "ES"),
    Country("Sweden", "+46", "SE"),
    Country("Switzerland", "+41", "CH"),
    Country("Taiwan", "+886", "TW"),
    Country("Thailand", "+66", "TH"),
    Country("Turkey", "+90", "TR"),
    Country("Ukraine", "+380", "UA"),
    Country("United Arab Emirates", "+971", "AE"),
    Country("United Kingdom", "+44", "GB"),
    Country("United States", "+1", "US"),
    Country("Vietnam", "+84", "VN")
  ]

  /** Both forms start with India's code selected. */
  const DEFAULT_CODE: string := "+91"

  /** The filter's test: the lower-cased name contains the lower-cased query, or the code
      contains the query as typed. */
  predicate Matches(c: Country, query: string) {
    Includes(Lower(c.name), Lower(query)) || Includes(c.code, query)
  }

  /** `COUNTRIES.filter(...)`: the countries that match, in list order. */
  function Filter(countries: seq<Country>, query: string): (r: seq<Country>)
    ensures |r| <= |countries|
    ensures forall c | c in r :: c in countries && Matches(c, query)
    ensures forall c | c in countries && Matches(c, query) :: c in r
  {
    if countries == [] then []
    else (if Matches(countries[0], query) then [countries[0]] else []) + Filter(countries[1..], query)
  }

  /** `r` is `s` with some elements left out and the rest kept in order. */
  ghost predicate IsSubsequence<T>(r: seq<T>, s: seq<T>)
    decreases |s|
  {
    if r == [] then true
    else if s == [] then false
    else (r[0] == s[0] && IsSubsequence(r[1..], s[1..])) || IsSubsequence(r, s[1..])
  }

  lemma {:induction false} FilterIsSubsequence(countries: seq<Country>, query: string)
    ensures IsSubsequence(Filter(countries, query), countries)
  {
    if countries != [] {
      var r := Filter(countries, query);
      FilterIsSubsequence(countries[1..], query);
      if Matches(countries[0], query) {
        assert r[0] == countries[0] && r[1..] == Filter(countries[1..], query);
      } else {
        assert r == Filter(countries[1..], query);
      }
    }
  }

  /** Filtering a list made of two parts filters each part and keeps them in that order. */
  lemma {:induction false} FilterConcat(a: seq<Country>, b: seq<Country>, query: string)
    ensures Filter(a + b, query) == Filter(a, query) + Filter(b, query)
  {
    if a == [] {
      assert a + b == b;
    } else {
      assert (a + b)[0] == a[0] && (a + b)[1..] == a[1..] + b;
      FilterConcat(a[1..], b, query);
    }
  }

  lemma {:induction false} FilterKeepsAllMatching(countries: seq<Country>, query: string)
    requires forall i | 0 <= i < |countries| :: Matches(countries[i], query)
    ensures Filter(countries, query) == countries
  {
    if countries != [] {
      FilterKeepsAllMatching(countries[1..], query);
    }
  }

  /** An empty search lists every country. */
  lemma EmptyQueryKeepsAll(countries: seq<Country>)
    ensures Filter(countries, "") == countries
  {
    forall i | 0 <= i < |countries| ensures Matches(countries[i], "") {
      IncludesEmpty(countries[i].code);
    }
    FilterKeepsAllMatching(countries, "");
  }

  predicate NoLetters(s: string) {
    forall k | 0 <= k < |s| :: !IsLetter(s[k])
  }

  /** When no code has a letter in it, the letter case of the query never matters. */
  lemma MatchesIgnoresCase(c: Country, q1: string, q2: string)
    requires NoLetters(c.code)
    requires Lower(q1) == Lower(q2)
    ensures Matches(c, q1) == Matches(c, q2)
  {
    if Includes(c.code, q1) { CodeMatchIgnoresCase(c.code, q1, q2); }
    if Includes(c.code, q2) { CodeMatchIgnoresCase(c.code, q2, q1); }
  }

  lemma CodeMatchIgnoresCase(code: string, q1: string, q2: string)
    requires NoLetters(code)
    requires Lower(q1) == Lower(q2)
    requires Includes(code, q1)
    ensures q2 == q1
  {
    IncludesChars(code, q1);
    assert NoLetters(q1) by {
      forall k | 0 <= k < |q1| ensures !IsLetter(q1[k]) {
        var j :| 0 <= j < |code| && code[j] == q1[k];
      }
    }
    LowerOfNoLetters(q1);
    LowerKeepsLetters(q2);
    assert NoLetters(q2) by {
      forall k | 0 <= k < |q2| ensures !IsLetter(q2[k]) {
        assert Lower(q2)[k] == q1[k];
      }
    }
    LowerOfNoLetters(q2);
  }

  lemma {:induction false} FilterIgnoresCase(countries: seq<Country>, q1: string, q2: string)
    requires forall i | 0 <= i < |countries| :: NoLetters(countries[i].code)
    requires Lower(q1) == Lower(q2)
    ensures Filter(countries, q1) == Filter(countries, q2)
  {
    if countries != [] {
      MatchesIgnoresCase(countries[0], q1, q2);
      FilterIgnoresCase(countries[1..], q1, q2);
    }
  }

  /** "+1" is the code of two countries, so a code does not identify a country. */
  lemma CodesAreNotUnique()
    ensures COUNTRIES[9].code == COUNTRIES[49].code == "+1"
    ensures COUNTRIES[9].iso != COUNTRIES[49].iso
    ensures COUNTRIES[19] == Country("India", DEFAULT_CODE, "IN")
  {
  }
}

/** Instrument-name helpers: the perpetual-future test and the underlying
    asset of a market or future name (`BTC/USD` -> `BTC`, `BTC-PERP` -> `BTC`).
    Searches are ordinal. */
module Instruments {
  import opened Wrappers
  import opened Text

  const PerpetualMarker: string := "-PERP"

  const NoSeparator: Exception :=
    ArgumentException("Market instrument name did not contain a dash (-) or a slash (/).")

  /** `IsPerpetual`: the name contains `-PERP` anywhere. */
  function IsPerpetual(name: string): (b: bool)
    ensures b <==> exists i :: OccursAt(name, PerpetualMarker, i)
  {
    Contains(name, PerpetualMarker)
  }

  /** `GetUnderlyingName`: the text before the first `/`; failing that, the
      text before the first `-`; failing both, an `ArgumentException`. */
  function GetUnderlyingName(name: string): (r: Result<string>)
    ensures '/' in name ==> r.Ok? && IsCutAt(name, r.value, '/')
    ensures '/' !in name && '-' in name ==> r.Ok? && IsCutAt(name, r.value, '-')
    ensures '/' !in name && '-' !in name ==> r == Err(NoSeparator)
  {
    var slashIndex := IndexOf(name, '/');
    if slashIndex != -1 then
      Ok(name[..slashIndex])
    else
      var dashIndex := IndexOf(name, '-');
      if dashIndex != -1 then Ok(name[..dashIndex])
      else Err(NoSeparator)
  }

  /** `prefix` is what precedes the first occurrence of `sep` in `name`. */
  predicate IsCutAt(name: string, prefix: string, sep: char)
  {
    |prefix| < |name| && prefix == name[..|prefix|] && name[|prefix|] == sep && sep !in prefix
  }

  /** Only one prefix of a name stops at the first occurrence of a
      separator. */
  lemma CutIsUnique(name: string, p: string, q: string, sep: char)
    requires IsCutAt(name, p, sep) && IsCutAt(name, q, sep)
    ensures p == q
  {
  }

  /** On success the underlying name is a proper prefix of the input and
      holds no `/`; in the dash case it holds no `-` either. */
  lemma UnderlyingNameIsProperPrefix(name: string)
    requires GetUnderlyingName(name).Ok?
    ensures var u := GetUnderlyingName(name).value;
      |u| < |name| && u == name[..|u|] && '/' !in u && ('/' !in name ==> '-' !in u)
  {
  }

  /** A slash wins over an earlier dash. */
  lemma SlashTakesPrecedence()
    ensures GetUnderlyingName("A-B/C") == Ok("A-B")
  {
    var name := "A-B/C";
    assert IsCutAt(name, "A-B", '/');
    CutIsUnique(name, GetUnderlyingName(name).value, "A-B", '/');
  }

  /** Two typical names, one perpetual and one dated future. */
  lemma PerpetualExamples()
    ensures IsPerpetual("BTC-PERP")
    ensures !IsPerpetual("BTC-0626")
  {
    assert OccursAt("BTC-PERP", PerpetualMarker, 3);
    var dated := "BTC-0626";
    forall i | 0 <= i && i + |PerpetualMarker| <= |dated|
      ensures !OccursAt(dated, PerpetualMarker, i)
    {
      var window := dated[i..i + |PerpetualMarker|];
      if i == 3 {
        assert window[1] == '0';
      } else {
        assert window[0] == dated[i] != '-';
      }
    }
  }
}

/** Ingestion (src/main.py, `initializeDB`): each CSV row, read through the
    header-name to column-index map, becomes one nested restaurant document.
    Python's `float(...)` and `json.loads(...)` are not modelled; they are
    passed in as the `Parsers` value (None stands for the exception they raise). */
module Ingestion {
  import opened Results
  import opened Text
  import opened Documents

  type Row = seq<string>

  /** Header name to column index, as built from the CSV header line. */
  type Headers = map<string, nat>

  datatype Parsers = Parsers(float: string -> Option<real>, json: string -> Option<OpenHours>)

  datatype PriceError =
    | NotAnInteger(text: string)   // ValueError from int(...)
    | MissingSeparator             // IndexError from split("-")[1]

  /** The exception that aborts the row (and with it the whole load). */
  datatype IngestionError =
    | MissingColumn(column: string)   // KeyError from headers[column]
    | ShortRow(column: string)        // IndexError from line[index]
    | BadNumber(column: string)       // ValueError from float(...)
    | BadOpenHours                    // failure of json.loads(...)
    | BadPrice(reason: PriceError)

  // ---------------------------------------------------------------------------
  // Reading a cell: line[headers[column]]
  // ---------------------------------------------------------------------------

  predicate Has(row: Row, headers: Headers, column: string) {
    column in headers && headers[column] < |row|
  }

  function Cell(row: Row, headers: Headers, column: string): (r: Result<string, IngestionError>)
    ensures r.Ok? <==> Has(row, headers, column)
    ensures r.Ok? ==> r.value == row[headers[column]]
  {
    if column !in headers then Err(MissingColumn(column))
    else if headers[column] >= |row| then Err(ShortRow(column))
    else Ok(row[headers[column]])
  }

  // ---------------------------------------------------------------------------
  // Field conversions
  // ---------------------------------------------------------------------------

  /** A list-valued cell (`features`, `top_tags`, `meals`, `cuisines`): empty
      gives no items; otherwise every space is removed and the rest is split on
      commas, so that joining the items with commas gives back the cell without
      its spaces. */
  function ListCell(cell: string): (r: seq<string>)
    ensures cell == "" <==> r == []
    ensures cell != "" ==> Join(r, ',') == Remove(cell, ' ')
    ensures forall i :: 0 <= i < |r| ==> ',' !in r[i] && ' ' !in r[i]
  {
    if cell == "" then []
    else
      SplitKeepsAbsent(Remove(cell, ' '), ',', ' ');
      Split(Remove(cell, ' '), ',')
  }

  /** `original_location` without any `[` or `"`. */
  function CleanLocation(location: string): string {
    Remove(Remove(location, '['), '"')
  }

  /** The continent: the cleaned location up to, not including, its first comma
      (all of it when there is none). */
  function Continent(location: string): (r: string)
    ensures r <= CleanLocation(location)
    ensures ',' !in r && '[' !in r && '"' !in r
    ensures |r| < |CleanLocation(location)| ==> CleanLocation(location)[|r|] == ','
    ensures ',' !in CleanLocation(location) ==> r == CleanLocation(location)
  {
    var clean := CleanLocation(location);
    var parts := Split(clean, ',');
    assert |parts| > 1 ==> clean == parts[0] + [','] + Join(parts[1..], ',');
    parts[0]
  }

  /** The price-range cell with commas deleted and the Swiss-franc marker
      (`CHF` and a no-break space) rewritten as `$`. */
  function CleanPrice(cell: string): string {
    ReplaceAll(Remove(cell, ','), "CHF\U{A0}", "$")
  }

  /** Python's `s[1:]`: drops the currency symbol; the empty string stays empty. */
  function DropFirst(s: string): (r: string)
    ensures s != "" ==> [s[0]] + r == s
    ensures s == "" ==> r == ""
  {
    if s == "" then "" else s[1..]
  }

  function IntOf(s: string): (r: Result<int, PriceError>)
    ensures r.Ok? <==> ParseInt(s).Some?
    ensures r.Ok? ==> ParseInt(s) == Some(r.value)
  {
    match ParseInt(s)
    case Some(v) => Ok(v)
    case None => Err(NotAnInteger(s))
  }

  /** The bounds read from the `-`-separated pieces: each of the first two
      pieces without its first character must be an integer. The lower bound is
      parsed before the second piece is looked up; further pieces are ignored. */
  function ParsePieces(pieces: seq<string>): (r: Result<(Option<int>, Option<int>), PriceError>)
    requires |pieces| >= 1
    ensures r.Ok? ==> r.value.0.Some? && r.value.1.Some?
    ensures |pieces| == 1 ==> r.Err?
  {
    var lo :- IntOf(DropFirst(pieces[0]));
    if |pieces| < 2 then Err(MissingSeparator)
    else
      var hi :- IntOf(DropFirst(pieces[1]));
      Ok((Some(lo), Some(hi)))
  }

  /** Parsing a cleaned price range: empty gives no bounds, anything else is
      split on `-`. */
  function ParseCleanPrice(pr: string): (r: Result<(Option<int>, Option<int>), PriceError>)
    ensures r.Ok? ==> (r.value.0.Some? <==> r.value.1.Some?)
    ensures r.Ok? && r.value.0.None? <==> pr == ""
    ensures pr != "" && '-' !in pr ==> r.Err?
  {
    if pr == "" then Ok((None, None)) else ParsePieces(Split(pr, '-'))
  }

  /** The `price_range` cell as min/max price: both set or both null, null
      exactly when the cleaned cell is empty. */
  function ParsePriceRange(cell: string): (r: Result<(Option<int>, Option<int>), PriceError>)
    ensures r.Ok? ==> (r.value.0.Some? <==> r.value.1.Some?)
    ensures r.Ok? && r.value.0.None? <==> CleanPrice(cell) == ""
    ensures cell == "" ==> r == Ok((None, None))
    ensures CleanPrice(cell) != "" && '-' !in CleanPrice(cell) ==> r.Err?
  {
    ParseCleanPrice(CleanPrice(cell))
  }

  lemma DigitsHaveNo(s: string, c: char)
    requires AllDigits(s) && !IsDigit(c)
    ensures c !in s
  {
  }

  /** `"<cur>a-<cur>b"` with canonical digits reads back as the bounds `(a, b)`
      for any currency character that the cleaning step and the split leave
      alone (`$`, `€`, `£`, ...). */
  lemma RangeRoundTrip(cur: char, a: nat, b: nat)
    requires cur != ',' && cur != '-'
    ensures ParsePriceRange([cur] + ShowNat(a) + "-" + [cur] + ShowNat(b)) == Ok((Some(a), Some(b)))
  {
    RangeIsClean(cur, ShowNat(a), ShowNat(b));
    RangeParses(cur, a, b);
  }

  lemma RangeParses(cur: char, a: nat, b: nat)
    requires cur != '-'
    ensures ParseCleanPrice([cur] + ShowNat(a) + "-" + [cur] + ShowNat(b)) == Ok((Some(a), Some(b)))
  {
    var sa, sb := ShowNat(a), ShowNat(b);
    var left, right := [cur] + sa, [cur] + sb;
    var text := left + ['-'] + right;
    assert Split(text, '-') == [left, right] by {
      SplitRange(cur, sa, sb);
    }
    assert ParsePieces([left, right]) == Ok((Some(a), Some(b))) by {
      ParseShow(a);
      ParseShow(b);
      ParseTwoPieces(left, right, a, b);
    }
    RangeText(cur, sa, sb);
  }

  lemma RangeText(cur: char, sa: string, sb: string)
    ensures [cur] + sa + "-" + [cur] + sb == [cur] + sa + ['-'] + ([cur] + sb)
  {
    assert "-" == ['-'];
  }

  /** `"<cur>a-<cur>b"` splits on `-` into its two amounts. */
  lemma SplitRange(cur: char, sa: string, sb: string)
    requires AllDigits(sa) && AllDigits(sb) && cur != '-'
    ensures Split([cur] + sa + ['-'] + ([cur] + sb), '-') == [[cur] + sa, [cur] + sb]
  {
    assert '-' !in [cur] + sa by {
      DigitsHaveNo(sa, '-');
    }
    assert '-' !in [cur] + sb by {
      DigitsHaveNo(sb, '-');
    }
    SplitTwo([cur] + sa, [cur] + sb, '-');
  }

  lemma ParseTwoPieces(left: string, right: string, a: int, b: int)
    requires left != "" && right != ""
    requires ParseInt(left[1..]) == Some(a) && ParseInt(right[1..]) == Some(b)
    ensures ParsePieces([left, right]) == Ok((Some(a), Some(b)))
  {
    assert DropFirst(left) == left[1..] && DropFirst(right) == right[1..];
  }

  /** Digits around a currency character other than `,` and a `-` are left
      alone by the cleaning step: after the currency character comes a digit,
      the `-` or nothing, so `CHF` never starts there. */
  lemma RangeIsClean(cur: char, sa: string, sb: string)
    requires AllDigits(sa) && AllDigits(sb) && cur != ','
    ensures CleanPrice([cur] + sa + "-" + [cur] + sb) == [cur] + sa + "-" + [cur] + sb
  {
    var text := [cur] + sa + "-" + [cur] + sb;
    assert Remove(text, ',') == text by {
      DigitsHaveNo(sa, ',');
      DigitsHaveNo(sb, ',');
      assert ',' !in text;
    }
    assert ReplaceAll(text, "CHF\U{A0}", "$") == text by {
      NoFrancIn(cur, sa, sb);
      ReplaceNoOccurrence(text, "CHF\U{A0}", "$");
    }
  }

  /** No `CHF` followed by a no-break space starts anywhere in `"<cur>a-<cur>b"`. */
  lemma NoFrancIn(cur: char, sa: string, sb: string)
    requires AllDigits(sa) && AllDigits(sb)
    ensures var text := [cur] + sa + "-" + [cur] + sb;
      forall i :: 0 <= i < |text| ==> !OccursAt(text, "CHF\U{A0}", i)
  {
    var text := [cur] + sa + "-" + [cur] + sb;
    var chf := "CHF\U{A0}";
    forall i | 0 <= i < |text|
      ensures !OccursAt(text, chf, i)
    {
      if i + |chf| <= |text| {
        var w := text[i..i + |chf|];
        assert w[0] == text[i] && w[1] == text[i + 1];
        if i + 1 == 0 || i + 1 == |sa| + 2 {
          assert i == |sa| + 1 && text[i] == '-';
        } else if i + 1 <= |sa| {
          assert text[i + 1] == sa[i];
        } else if i + 1 == |sa| + 1 {
          assert text[i + 1] == '-';
        } else {
          assert text[i + 1] == sb[i + 1 - |sa| - 3];
        }
      }
    }
  }

  /** The franc form `"CHF a-CHF b"` (no-break spaces) cleans to `"$a-$b"`. */
  lemma FrancRangeCleans(a: nat, b: nat)
    ensures CleanPrice("CHF\U{A0}" + ShowNat(a) + "-CHF\U{A0}" + ShowNat(b)) == ['$'] + ShowNat(a) + "-" + ['$'] + ShowNat(b)
  {
    FrancDigitsClean(ShowNat(a), ShowNat(b));
  }

  lemma FrancDigitsClean(sa: string, sb: string)
    requires AllDigits(sa) && AllDigits(sb)
    ensures CleanPrice("CHF\U{A0}" + sa + "-CHF\U{A0}" + sb) == ['$'] + sa + "-" + ['$'] + sb
  {
    var chf := "CHF\U{A0}";
    var head := sa + "-";
    var francs := chf + (head + (chf + sb));
    assert "CHF\U{A0}" + sa + "-CHF\U{A0}" + sb == francs;
    assert Remove(francs, ',') == francs by {
      DigitsHaveNo(sa, ',');
      DigitsHaveNo(sb, ',');
      assert ',' !in francs;
    }
    assert ReplaceAll(chf + sb, chf, "$") == "$" + sb by {
      DigitsHaveNo(sb, 'C');
      ReplaceAtFront(sb, chf, "$");
      ReplaceAbsent(sb, chf, "$");
    }
    assert ReplaceAll(head + (chf + sb), chf, "$") == head + ReplaceAll(chf + sb, chf, "$") by {
      DigitsHaveNo(sa, 'C');
      assert 'C' !in head;
      ReplaceKeepsPrefix(head, chf + sb, chf, "$");
    }
    assert ReplaceAll(francs, chf, "$") == "$" + ReplaceAll(head + (chf + sb), chf, "$") by {
      ReplaceAtFront(head + (chf + sb), chf, "$");
    }
    assert "$" + (head + ("$" + sb)) == ['$'] + sa + "-" + ['$'] + sb;
  }

  /** `"CHF a-CHF b"` (no-break spaces) reads back as the bounds `(a, b)`. */
  lemma FrancRangeRoundTrip(a: nat, b: nat)
    ensures ParsePriceRange("CHF\U{A0}" + ShowNat(a) + "-CHF\U{A0}" + ShowNat(b)) == Ok((Some(a), Some(b)))
  {
    FrancRangeCleans(a, b);
    RangeParses('$', a, b);
  }

  /** Only the first two `-`-separated pieces are read: anything after a second
      `-` is ignored. */
  lemma PriceIgnoresExtraPieces(x: string, y: string, z: string)
    requires '-' !in x && '-' !in y
    ensures ParseCleanPrice(x + "-" + y + "-" + z) == ParseCleanPrice(x + "-" + y)
  {
    var long, short := x + ['-'] + y + ['-'] + z, x + ['-'] + y;
    assert x + "-" + y + "-" + z == long;
    assert x + "-" + y == short;
    var pieces := Split(long, '-');
    assert ParsePieces(pieces) == ParsePieces([x, y]) by {
      SplitFirstTwo(x, y, z, '-');
      ParsePiecesReadsTwo(pieces);
    }
    assert Split(short, '-') == [x, y] by {
      SplitTwo(x, y, '-');
    }
  }

  lemma ParsePiecesReadsTwo(pieces: seq<string>)
    requires |pieces| >= 2
    ensures ParsePieces(pieces) == ParsePieces(pieces[..2])
  {
  }

  /** A numeric cell with the empty-cell default 0: it converts exactly when
      the cell exists and is empty or a number. */
  function NumberOrZero(row: Row, headers: Headers, p: Parsers, column: string): (r: Result<real, IngestionError>)
    ensures r.Ok? <==> NumberCell(row, headers, p, column)
    ensures r.Ok? ==> ZeroDefaulted(row, headers, p, column, r.value)
    ensures Has(row, headers, column) && r.Err? ==> r.error == BadNumber(column)
  {
    var cell :- Cell(row, headers, column);
    if cell == "" then Ok(0.0)
    else if p.float(cell).Some? then Ok(p.float(cell).value)
    else Err(BadNumber(column))
  }

  /** A numeric cell whose empty-cell default is None (the schedule fields):
      it converts exactly when the cell exists and is empty or a number. */
  function NumberOrNone(row: Row, headers: Headers, p: Parsers, column: string): (r: Result<Option<real>, IngestionError>)
    ensures r.Ok? <==> NumberCell(row, headers, p, column)
    ensures r.Ok? ==> NoneDefaulted(row, headers, p, column, r.value)
    ensures Has(row, headers, column) && r.Err? ==> r.error == BadNumber(column)
  {
    var cell :- Cell(row, headers, column);
    if cell == "" then Ok(None)
    else if p.float(cell).Some? then Ok(p.float(cell))
    else Err(BadNumber(column))
  }

  /** The opening-hours cell: empty gives the empty mapping, anything else the
      decoded mapping; it converts exactly when the cell exists and is empty or
      decodes. */
  function OpenHoursCell(row: Row, headers: Headers, p: Parsers): (r: Result<OpenHours, IngestionError>)
    ensures r.Ok? <==> OpenHoursReadable(row, headers, p)
    ensures r.Ok? ==> OpenHoursOf(row, headers, p, r.value)
    ensures Has(row, headers, "original_open_hours") && r.Err? ==> r.error == BadOpenHours
  {
    var cell :- Cell(row, headers, "original_open_hours");
    if cell == "" then Ok(map[])
    else if p.json(cell).Some? then Ok(p.json(cell).value)
    else Err(BadOpenHours)
  }

  // ---------------------------------------------------------------------------
  // What a field of a document is, in terms of its cell
  // ---------------------------------------------------------------------------

  /** `v` is the cell copied as is. */
  predicate Verbatim(row: Row, headers: Headers, column: string, v: string) {
    Has(row, headers, column) && v == row[headers[column]]
  }

  /** `v` is the list the cell gives. */
  predicate ListOf(row: Row, headers: Headers, column: string, v: seq<string>) {
    Has(row, headers, column) && v == ListCell(row[headers[column]])
  }

  /** `v` is 0 for an empty cell and the parsed number otherwise. */
  predicate ZeroDefaulted(row: Row, headers: Headers, p: Parsers, column: string, v: real) {
    Has(row, headers, column) &&
    if row[headers[column]] == "" then v == 0.0 else p.float(row[headers[column]]) == Some(v)
  }

  /** `v` is None for an empty cell and the parsed number otherwise. */
  predicate NoneDefaulted(row: Row, headers: Headers, p: Parsers, column: string, v: Option<real>) {
    Has(row, headers, column) &&
    if row[headers[column]] == "" then v == None else v.Some? && p.float(row[headers[column]]) == v
  }

  /** `v` is the empty mapping for an empty cell and the decoded one otherwise. */
  predicate OpenHoursOf(row: Row, headers: Headers, p: Parsers, v: OpenHours) {
    Has(row, headers, "original_open_hours") &&
    var cell := row[headers["original_open_hours"]];
    if cell == "" then v == map[] else p.json(cell) == Some(v)
  }

  // ---------------------------------------------------------------------------
  // When a cell, a record and a row convert
  // ---------------------------------------------------------------------------

  /** The cell exists and is empty or a number. */
  predicate NumberCell(row: Row, headers: Headers, p: Parsers, column: string) {
    Has(row, headers, column) && (row[headers[column]] == "" || p.float(row[headers[column]]).Some?)
  }

  /** The opening-hours cell exists and is empty or decodes. */
  predicate OpenHoursReadable(row: Row, headers: Headers, p: Parsers) {
    Has(row, headers, "original_open_hours") &&
    var cell := row[headers["original_open_hours"]];
    cell == "" || p.json(cell).Some?
  }

  predicate RootReadable(row: Row, headers: Headers) {
    && Has(row, headers, "features") && Has(row, headers, "restaurant_link")
    && Has(row, headers, "restaurant_name") && Has(row, headers, "claimed")
    && Has(row, headers, "awards") && Has(row, headers, "keywords")
  }

  predicate PositionReadable(row: Row, headers: Headers, p: Parsers) {
    && Has(row, headers, "original_location") && Has(row, headers, "country")
    && Has(row, headers, "region") && Has(row, headers, "province")
    && Has(row, headers, "city") && Has(row, headers, "address")
    && NumberCell(row, headers, p, "latitude") && NumberCell(row, headers, p, "longitude")
  }

  predicate PopularityReadable(row: Row, headers: Headers) {
    Has(row, headers, "top_tags") && Has(row, headers, "popularity_detailed") && Has(row, headers, "popularity_generic")
  }

  /** The price range exists and parses, and the price level exists. */
  predicate PriceReadable(row: Row, headers: Headers) {
    && Has(row, headers, "price_range") && ParsePriceRange(row[headers["price_range"]]).Ok?
    && Has(row, headers, "price_level")
  }

  predicate FoodInfoReadable(row: Row, headers: Headers) {
    && Has(row, headers, "meals") && Has(row, headers, "cuisines")
    && Has(row, headers, "special_diets") && Has(row, headers, "vegetarian_friendly")
    && Has(row, headers, "vegan_options") && Has(row, headers, "gluten_free")
  }

  predicate ScheduleReadable(row: Row, headers: Headers, p: Parsers) {
    && OpenHoursReadable(row, headers, p)
    && NumberCell(row, headers, p, "open_days_per_week")
    && NumberCell(row, headers, p, "open_hours_per_week")
    && NumberCell(row, headers, p, "working_shifts_per_week")
  }

  predicate ReviewReadable(row: Row, headers: Headers, p: Parsers) {
    && NumberCell(row, headers, p, "total_reviews_count") && Has(row, headers, "default_language")
    && NumberCell(row, headers, p, "reviews_count_in_default_language")
  }

  predicate RatingReadable(row: Row, headers: Headers, p: Parsers) {
    && NumberCell(row, headers, p, "avg_rating") && NumberCell(row, headers, p, "excellent")
    && NumberCell(row, headers, p, "very_good") && NumberCell(row, headers, p, "average")
    && NumberCell(row, headers, p, "poor") && NumberCell(row, headers, p, "terrible")
    && NumberCell(row, headers, p, "food") && NumberCell(row, headers, p, "service")
    && NumberCell(row, headers, p, "value") && NumberCell(row, headers, p, "atmosphere")
  }

  /** Every cell the load reads exists, every non-empty numeric cell is a
      number, the opening hours decode and the price range parses. */
  predicate RowConverts(row: Row, headers: Headers, p: Parsers) {
    && RootReadable(row, headers)
    && PositionReadable(row, headers, p) && PopularityReadable(row, headers)
    && PriceReadable(row, headers) && FoodInfoReadable(row, headers)
    && ScheduleReadable(row, headers, p) && ReviewReadable(row, headers, p)
    && RatingReadable(row, headers, p)
  }

  // ---------------------------------------------------------------------------
  // The seven sub-records, each read in the order of the source
  // ---------------------------------------------------------------------------

  function ReadPosition(row: Row, headers: Headers, p: Parsers, link: string): (r: Result<Position, IngestionError>)
    ensures r.Ok? <==> PositionReadable(row, headers, p)
    ensures r.Ok? ==> r.value.restaurantLink == link
    ensures r.Ok? ==> Has(row, headers, "original_location")
                      && r.value.continent == Continent(row[headers["original_location"]])
    ensures r.Ok? ==> && Verbatim(row, headers, "country", r.value.country)
                      && Verbatim(row, headers, "region", r.value.region)
                      && Verbatim(row, headers, "province", r.value.province)
                      && Verbatim(row, headers, "city", r.value.city)
                      && Verbatim(row, headers, "address", r.value.address)
    ensures r.Ok? ==> && ZeroDefaulted(row, headers, p, "latitude", r.value.latitude)
                      && ZeroDefaulted(row, headers, p, "longitude", r.value.longitude)
  {
    var location :- Cell(row, headers, "original_location");
    var country :- Cell(row, headers, "country");
    var region :- Cell(row, headers, "region");
    var province :- Cell(row, headers, "province");
    var city :- Cell(row, headers, "city");
    var address :- Cell(row, headers, "address");
    var latitude :- NumberOrZero(row, headers, p, "latitude");
    var longitude :- NumberOrZero(row, headers, p, "longitude");
    Ok(Position(link, Continent(location), country, region, province, city, address, latitude, longitude))
  }

  function ReadPopularity(row: Row, headers: Headers, link: string): (r: Result<Popularity, IngestionError>)
    ensures r.Ok? <==> PopularityReadable(row, headers)
    ensures r.Ok? ==> r.value.restaurantLink == link
    ensures r.Ok? ==> && ListOf(row, headers, "top_tags", r.value.topTags)
                      && Verbatim(row, headers, "popularity_detailed", r.value.popularityDetailed)
                      && Verbatim(row, headers, "popularity_generic", r.value.popularityGeneric)
  {
    var tags :- Cell(row, headers, "top_tags");
    var detailed :- Cell(row, headers, "popularity_detailed");
    var generic :- Cell(row, headers, "popularity_generic");
    Ok(Popularity(link, detailed, generic, ListCell(tags)))
  }

  function ReadPrice(row: Row, headers: Headers, link: string): (r: Result<Price, IngestionError>)
    ensures r.Ok? <==> PriceReadable(row, headers)
    ensures r.Ok? ==> r.value.restaurantLink == link
    ensures r.Ok? ==> && Has(row, headers, "price_range")
                      && ParsePriceRange(row[headers["price_range"]]) == Ok((r.value.minPrice, r.value.maxPrice))
                      && Verbatim(row, headers, "price_level", r.value.priceLevel)
    ensures Has(row, headers, "price_range") && ParsePriceRange(row[headers["price_range"]]).Err? ==>
              r == Err(BadPrice(ParsePriceRange(row[headers["price_range"]]).error))
  {
    var range :- Cell(row, headers, "price_range");
    var bounds := ParsePriceRange(range);
    if bounds.Err? then Err(BadPrice(bounds.error))
    else
      var level :- Cell(row, headers, "price_level");
      Ok(Price(link, level, bounds.value.0, bounds.value.1))
  }

  function ReadFoodInfo(row: Row, headers: Headers, link: string): (r: Result<FoodInfo, IngestionError>)
    ensures r.Ok? <==> FoodInfoReadable(row, headers)
    ensures r.Ok? ==> r.value.restaurantLink == link
    ensures r.Ok? ==> && ListOf(row, headers, "meals", r.value.meals)
                      && ListOf(row, headers, "cuisines", r.value.cuisines)
                      && Verbatim(row, headers, "special_diets", r.value.specialDiets)
                      && Verbatim(row, headers, "vegetarian_friendly", r.value.vegetarianFriendly)
                      && Verbatim(row, headers, "vegan_options", r.value.veganOptions)
                      && Verbatim(row, headers, "gluten_free", r.value.glutenFree)
  {
    var meals :- Cell(row, headers, "meals");
    var cuisines :- Cell(row, headers, "cuisines");
    var diets :- Cell(row, headers, "special_diets");
    var vegetarian :- Cell(row, headers, "vegetarian_friendly");
    var vegan :- Cell(row, headers, "vegan_options");
    var glutenFree :- Cell(row, headers, "gluten_free");
    Ok(FoodInfo(link, ListCell(meals), ListCell(cuisines), diets, vegetarian, vegan, glutenFree))
  }

  function ReadSchedule(row: Row, headers: Headers, p: Parsers, link: string): (r: Result<Schedule, IngestionError>)
    ensures r.Ok? <==> ScheduleReadable(row, headers, p)
    ensures r.Ok? ==> r.value.restaurantLink == link
    ensures r.Ok? ==> OpenHoursOf(row, headers, p, r.value.originalOpenHours)
    ensures r.Ok? ==> && NoneDefaulted(row, headers, p, "open_days_per_week", r.value.openDaysPerWeek)
                      && NoneDefaulted(row, headers, p, "open_hours_per_week", r.value.openHoursPerWeek)
                      && NoneDefaulted(row, headers, p, "working_shifts_per_week", r.value.workingShiftsPerWeek)
  {
    var hours :- OpenHoursCell(row, headers, p);
    var days :- NumberOrNone(row, headers, p, "open_days_per_week");
    var hoursPerWeek :- NumberOrNone(row, headers, p, "open_hours_per_week");
    var shifts :- NumberOrNone(row, headers, p, "working_shifts_per_week");
    Ok(Schedule(link, hours, days, hoursPerWeek, shifts))
  }

  function ReadReview(row: Row, headers: Headers, p: Parsers, link: string): (r: Result<Review, IngestionError>)
    ensures r.Ok? <==> ReviewReadable(row, headers, p)
    ensures r.Ok? ==> r.value.restaurantLink == link
    ensures r.Ok? ==> && ZeroDefaulted(row, headers, p, "total_reviews_count", r.value.totalReviewsCount)
                      && Verbatim(row, headers, "default_language", r.value.defaultLanguage)
                      && ZeroDefaulted(row, headers, p, "reviews_count_in_default_language", r.value.reviewsCountInDefaultLanguage)
  {
    var total :- NumberOrZero(row, headers, p, "total_reviews_count");
    var language :- Cell(row, headers, "default_language");
    var inLanguage :- NumberOrZero(row, headers, p, "reviews_count_in_default_language");
    Ok(Review(link, total, language, inLanguage))
  }

  function ReadRating(row: Row, headers: Headers, p: Parsers, link: string): (r: Result<RatingRecord, IngestionError>)
    ensures r.Ok? <==> RatingReadable(row, headers, p)
    ensures r.Ok? ==> r.value.restaurantLink == link
    ensures r.Ok? ==> && ZeroDefaulted(row, headers, p, "avg_rating", r.value.avgRating)
                      && ZeroDefaulted(row, headers, p, "excellent", r.value.excellent)
                      && ZeroDefaulted(row, headers, p, "very_good", r.value.veryGood)
                      && ZeroDefaulted(row, headers, p, "average", r.value.average)
                      && ZeroDefaulted(row, headers, p, "poor", r.value.poor)
                      && ZeroDefaulted(row, headers, p, "terrible", r.value.terrible)
                      && ZeroDefaulted(row, headers, p, "food", r.value.food)
                      && ZeroDefaulted(row, headers, p, "service", r.value.service)
                      && ZeroDefaulted(row, headers, p, "value", r.value.value)
                      && ZeroDefaulted(row, headers, p, "atmosphere", r.value.atmosphere)
  {
    var avg :- NumberOrZero(row, headers, p, "avg_rating");
    var excellent :- NumberOrZero(row, headers, p, "excellent");
    var veryGood :- NumberOrZero(row, headers, p, "very_good");
    var average :- NumberOrZero(row, headers, p, "average");
    var poor :- NumberOrZero(row, headers, p, "poor");
    var terrible :- NumberOrZero(row, headers, p, "terrible");
    var food :- NumberOrZero(row, headers, p, "food");
    var service :- NumberOrZero(row, headers, p, "service");
    var value :- NumberOrZero(row, headers, p, "value");
    var atmosphere :- NumberOrZero(row, headers, p, "atmosphere");
    Ok(RatingRecord(link, avg, excellent, veryGood, average, poor, terrible, food, service, value, atmosphere))
  }

  // ---------------------------------------------------------------------------
  // One row, and the whole load
  // ---------------------------------------------------------------------------

  /** The root cells of a row, read first (features, then the link, name,
      claimed flag, awards and keywords). */
  datatype Root = Root(link: string, name: string, claimed: string, awards: string, keywords: string, features: seq<string>)

  function ReadRoot(row: Row, headers: Headers): (r: Result<Root, IngestionError>)
    ensures r.Ok? <==> RootReadable(row, headers)
    ensures r.Ok? ==> && Verbatim(row, headers, "restaurant_link", r.value.link)
                      && Verbatim(row, headers, "restaurant_name", r.value.name)
                      && Verbatim(row, headers, "claimed", r.value.claimed)
                      && Verbatim(row, headers, "awards", r.value.awards)
                      && Verbatim(row, headers, "keywords", r.value.keywords)
                      && ListOf(row, headers, "features", r.value.features)
  {
    var features :- Cell(row, headers, "features");
    var link :- Cell(row, headers, "restaurant_link");
    var name :- Cell(row, headers, "restaurant_name");
    var claimed :- Cell(row, headers, "claimed");
    var awards :- Cell(row, headers, "awards");
    var keywords :- Cell(row, headers, "keywords");
    Ok(Root(link, name, claimed, awards, keywords, ListCell(features)))
  }

  /** The first four sub-records, in source order. */
  function ReadListing(row: Row, headers: Headers, p: Parsers, link: string): (r: Result<(Position, Popularity, Price, FoodInfo), IngestionError>)
    ensures r.Ok? <==> && PositionReadable(row, headers, p) && PopularityReadable(row, headers)
                       && PriceReadable(row, headers) && FoodInfoReadable(row, headers)
    ensures r.Ok? ==> && ReadPosition(row, headers, p, link) == Ok(r.value.0)
                      && ReadPopularity(row, headers, link) == Ok(r.value.1)
                      && ReadPrice(row, headers, link) == Ok(r.value.2)
                      && ReadFoodInfo(row, headers, link) == Ok(r.value.3)
  {
    var position :- ReadPosition(row, headers, p, link);
    var popularity :- ReadPopularity(row, headers, link);
    var price :- ReadPrice(row, headers, link);
    var foodInfo :- ReadFoodInfo(row, headers, link);
    Ok((position, popularity, price, foodInfo))
  }

  /** The last three sub-records, in source order. */
  function ReadActivity(row: Row, headers: Headers, p: Parsers, link: string): (r: Result<(Schedule, Review, RatingRecord), IngestionError>)
    ensures r.Ok? <==> ScheduleReadable(row, headers, p) && ReviewReadable(row, headers, p) && RatingReadable(row, headers, p)
    ensures r.Ok? ==> && ReadSchedule(row, headers, p, link) == Ok(r.value.0)
                      && ReadReview(row, headers, p, link) == Ok(r.value.1)
                      && ReadRating(row, headers, p, link) == Ok(r.value.2)
  {
    var schedule :- ReadSchedule(row, headers, p, link);
    var review :- ReadReview(row, headers, p, link);
    var rating :- ReadRating(row, headers, p, link);
    Ok((schedule, review, rating))
  }

  /** One row as a document: the root fields and the seven sub-records, all
      carrying the row's `restaurant_link`. It converts exactly when every cell
      it reads exists and holds what its field needs. */
  function NormalizeRow(row: Row, headers: Headers, p: Parsers): (r: Result<Restaurant, IngestionError>)
    ensures r.Ok? <==> RowConverts(row, headers, p)
    ensures r.Ok? ==> Verbatim(row, headers, "restaurant_link", r.value.restaurantLink)
    ensures r.Ok? ==> LinksAgree(r.value)
  {
    var root :- ReadRoot(row, headers);
    var listing :- ReadListing(row, headers, p, root.link);
    var activity :- ReadActivity(row, headers, p, root.link);
    Ok(Restaurant(root.link, root.name, root.claimed, root.awards, root.keywords, root.features,
                  listing.0, listing.1, listing.2, listing.3, activity.0, activity.1, activity.2))
  }

  /** A successful row is its root cells plus the seven sub-records read for its link. */
  lemma RowParts(row: Row, headers: Headers, p: Parsers, d: Restaurant)
    requires NormalizeRow(row, headers, p) == Ok(d)
    ensures ReadRoot(row, headers) == Ok(Root(d.restaurantLink, d.restaurantName, d.claimed, d.awards, d.keywords, d.features))
    ensures ReadListing(row, headers, p, d.restaurantLink) == Ok((d.position, d.popularity, d.price, d.foodInfo))
    ensures ReadActivity(row, headers, p, d.restaurantLink) == Ok((d.schedule, d.review, d.rating))
  {
  }

  /** The text fields of a document: copied cells (`awards`, `keywords` and
      `special_diets` are not split), list cells, and the continent. */
  lemma NormalizedTextFields(row: Row, headers: Headers, p: Parsers, d: Restaurant)
    requires NormalizeRow(row, headers, p) == Ok(d)
    ensures Verbatim(row, headers, "restaurant_link", d.restaurantLink)
    ensures Verbatim(row, headers, "awards", d.awards)
    ensures Verbatim(row, headers, "keywords", d.keywords)
    ensures Verbatim(row, headers, "special_diets", d.foodInfo.specialDiets)
    ensures ListOf(row, headers, "features", d.features)
    ensures ListOf(row, headers, "top_tags", d.popularity.topTags)
    ensures ListOf(row, headers, "meals", d.foodInfo.meals)
    ensures ListOf(row, headers, "cuisines", d.foodInfo.cuisines)
    ensures Has(row, headers, "original_location")
    ensures d.position.continent == Continent(row[headers["original_location"]])
    ensures Verbatim(row, headers, "city", d.position.city)
    ensures Verbatim(row, headers, "country", d.position.country)
    ensures Verbatim(row, headers, "popularity_generic", d.popularity.popularityGeneric)
  {
    RowParts(row, headers, p, d);
  }

  /** The numeric fields of a document outside the rating record: empty cells
      give 0, except the three schedule fields, which give None; the opening
      hours are the empty mapping for an empty cell and the decoded mapping
      otherwise. */
  lemma NormalizedNumbers(row: Row, headers: Headers, p: Parsers, d: Restaurant)
    requires NormalizeRow(row, headers, p) == Ok(d)
    ensures ZeroDefaulted(row, headers, p, "latitude", d.position.latitude)
    ensures ZeroDefaulted(row, headers, p, "longitude", d.position.longitude)
    ensures NoneDefaulted(row, headers, p, "open_days_per_week", d.schedule.openDaysPerWeek)
    ensures NoneDefaulted(row, headers, p, "open_hours_per_week", d.schedule.openHoursPerWeek)
    ensures NoneDefaulted(row, headers, p, "working_shifts_per_week", d.schedule.workingShiftsPerWeek)
    ensures OpenHoursOf(row, headers, p, d.schedule.originalOpenHours)
    ensures ZeroDefaulted(row, headers, p, "total_reviews_count", d.review.totalReviewsCount)
    ensures ZeroDefaulted(row, headers, p, "reviews_count_in_default_language", d.review.reviewsCountInDefaultLanguage)
  {
    RowParts(row, headers, p, d);
  }

  /** The ten numbers of a document's rating record: 0 for an empty cell, the
      parsed number otherwise. */
  lemma NormalizedRatings(row: Row, headers: Headers, p: Parsers, d: Restaurant)
    requires NormalizeRow(row, headers, p) == Ok(d)
    ensures ZeroDefaulted(row, headers, p, "avg_rating", d.rating.avgRating)
    ensures ZeroDefaulted(row, headers, p, "excellent", d.rating.excellent)
    ensures ZeroDefaulted(row, headers, p, "very_good", d.rating.veryGood)
    ensures ZeroDefaulted(row, headers, p, "average", d.rating.average)
    ensures ZeroDefaulted(row, headers, p, "poor", d.rating.poor)
    ensures ZeroDefaulted(row, headers, p, "terrible", d.rating.terrible)
    ensures ZeroDefaulted(row, headers, p, "food", d.rating.food)
    ensures ZeroDefaulted(row, headers, p, "service", d.rating.service)
    ensures ZeroDefaulted(row, headers, p, "value", d.rating.value)
    ensures ZeroDefaulted(row, headers, p, "atmosphere", d.rating.atmosphere)
  {
    RowParts(row, headers, p, d);
  }

  /** The price of a document: the bounds its price-range cell parses to, so
      both null (empty cleaned range) or both set. */
  lemma NormalizedPrice(row: Row, headers: Headers, p: Parsers, d: Restaurant)
    requires NormalizeRow(row, headers, p) == Ok(d)
    ensures Has(row, headers, "price_range")
    ensures ParsePriceRange(row[headers["price_range"]]) == Ok((d.price.minPrice, d.price.maxPrice))
    ensures d.price.minPrice.Some? <==> d.price.maxPrice.Some?
    ensures d.price.minPrice.None? <==> CleanPrice(row[headers["price_range"]]) == ""
  {
    RowParts(row, headers, p, d);
  }

  /** A malformed price range aborts the row. */
  lemma BadPriceAbortsRow(row: Row, headers: Headers, p: Parsers)
    requires Has(row, headers, "price_range")
    requires ParsePriceRange(row[headers["price_range"]]).Err?
    ensures NormalizeRow(row, headers, p).Err?
  {
  }

  /** The documents produced so far are the values of the first outcomes, in
      order. */
  ghost predicate OkPrefix<T, E>(outs: seq<Result<T, E>>, docs: seq<T>) {
    |docs| <= |outs| && forall k :: 0 <= k < |docs| ==> outs[k] == Ok(docs[k])
  }

  lemma OkPrefixStep<T, E>(outs: seq<Result<T, E>>, docs: seq<T>, d: T)
    requires OkPrefix(outs, docs) && |docs| < |outs| && outs[|docs|] == Ok(d)
    ensures OkPrefix(outs, docs + [d])
  {
    var next := docs + [d];
    forall k | 0 <= k < |next|
      ensures outs[k] == Ok(next[k])
    {
      if k < |docs| {
        assert next[k] == docs[k];
      }
    }
  }

  /** The load: one document per row, in row order; the first failing row aborts
      it and nothing is returned for insertion. */
  method InitializeDB(headers: Headers, rows: seq<Row>, p: Parsers) returns (r: Result<seq<Restaurant>, IngestionError>)
    ensures r.Ok? <==> forall i :: 0 <= i < |rows| ==> NormalizeRow(rows[i], headers, p).Ok?
    ensures r.Ok? <==> forall i :: 0 <= i < |rows| ==> RowConverts(rows[i], headers, p)
    ensures r.Ok? ==> |r.value| == |rows|
    ensures r.Ok? ==> forall i :: 0 <= i < |rows| ==> NormalizeRow(rows[i], headers, p) == Ok(r.value[i])
    ensures r.Err? ==> exists i :: 0 <= i < |rows| && NormalizeRow(rows[i], headers, p) == Err(r.error)
                          && forall j :: 0 <= j < i ==> NormalizeRow(rows[j], headers, p).Ok?
  {
    ghost var outs := seq(|rows|, k requires 0 <= k < |rows| => NormalizeRow(rows[k], headers, p));
    var restaurants: seq<Restaurant> := [];
    while |restaurants| < |rows|
      invariant OkPrefix(outs, restaurants)
      decreases |rows| - |restaurants|
    {
      var res := NormalizeRow(rows[|restaurants|], headers, p);
      if res.Err? {
        forall j | 0 <= j < |restaurants|
          ensures NormalizeRow(rows[j], headers, p).Ok?
        {
          assert outs[j] == Ok(restaurants[j]);
        }
        return Err(res.error);
      }
      OkPrefixStep(outs, restaurants, res.value);
      restaurants := restaurants + [res.value];
    }
    forall i | 0 <= i < |rows|
      ensures NormalizeRow(rows[i], headers, p) == Ok(restaurants[i])
    {
      assert outs[i] == Ok(restaurants[i]);
    }
    return Ok(restaurants);
  }
}

/** The catalogue entities of tyres/models.py: a tyre model (brand and name),
    its purchasable variants with size, price and stock, favourites and
    catalogue categories. Prices are whole kopecks. */
module TyreModels {
  import opened Wrappers
  import opened Text

  datatype TyreModel = TyreModel(id: int, name: string, brand: string, description: string)

  /** A purchasable size of a tyre model. */
  datatype TyreVariant = TyreVariant(
    id: int,
    model: TyreModel,
    width: int,
    profile: int,
    radius: int,
    season: string,
    studded: bool,
    speedIndex: string,
    price: int,
    stock: int)

  const SeasonChoices: seq<(string, string)> :=
    [("summer", "Летние"), ("winter", "Зимние"), ("all_season", "Всесезонные")]

  const SpeedIndexValues: seq<string> := ["Q", "R", "S", "T", "H", "V", "W", "Y", "ZR"]

  function ChoiceValues(choices: seq<(string, string)>): seq<string> {
    seq(|choices|, i requires 0 <= i < |choices| => choices[i].0)
  }

  /** What full validation of a variant accepts: the validator ranges and the choices. */
  predicate ValidVariant(v: TyreVariant) {
    && 125 <= v.width <= 445
    && 25 <= v.profile <= 100
    && 13 <= v.radius <= 24
    && v.price >= 0
    && v.stock >= 0
    && v.season in ChoiceValues(SeasonChoices)
    && v.speedIndex in SpeedIndexValues
  }

  /** The variant of the model tests passes validation and answers the stock
      questions they ask, while a width of 100 or a negative price fails it. */
  lemma ValidVariantCases()
    ensures var m := TyreModel(1, "Test Tyre", "Test Brand", "Test Description");
            var v := TyreVariant(1, m, 205, 55, 16, "summer", false, "H", 1000000, 10);
            && ValidVariant(v)
            && IsInStock(v) && CanOrder(v, 5) && !CanOrder(v, 15)
            && !ValidVariant(v.(width := 100))
            && !ValidVariant(v.(price := -100000))
  {
    assert ChoiceValues(SeasonChoices)[0] == "summer";
    assert SpeedIndexValues[4] == "H";
  }

  /** get_FOO_display(): the label of the stored value, or the value itself
      when it is not one of the choices. */
  function ChoiceLabel(choices: seq<(string, string)>, value: string): (r: string)
    ensures (exists i :: 0 <= i < |choices| && choices[i].0 == value) ==>
              exists i :: 0 <= i < |choices| && choices[i] == (value, r)
    ensures (forall i :: 0 <= i < |choices| ==> choices[i].0 != value) ==> r == value
  {
    if choices == [] then value
    else if choices[0].0 == value then choices[0].1
    else
      var r := ChoiceLabel(choices[1..], value);
      assert forall i :: 1 <= i < |choices| ==> choices[i] == choices[1..][i - 1];
      r
  }

  function SeasonLabel(season: string): string {
    ChoiceLabel(SeasonChoices, season)
  }

  lemma SeasonLabels()
    ensures SeasonLabel("summer") == "Летние"
    ensures SeasonLabel("winter") == "Зимние"
    ensures SeasonLabel("all_season") == "Всесезонные"
  {
  }

  // ---------------------------------------------------------------------
  // Stock

  predicate IsInStock(v: TyreVariant): (r: bool)
    ensures r <==> CanOrder(v, 1)
  {
    v.stock > 0
  }

  predicate CanOrder(v: TyreVariant, quantity: int): (r: bool)
    ensures v.stock >= 0 && quantity <= 0 ==> r
  {
    v.stock >= quantity
  }

  /** A variant can be ordered once exactly when it is in stock, and an
      orderable quantity stays orderable when it is lowered. */
  lemma CanOrderAndInStock(v: TyreVariant, q1: int, q2: int)
    ensures CanOrder(v, 1) <==> IsInStock(v)
    ensures q1 <= q2 && CanOrder(v, q2) ==> CanOrder(v, q1)
    ensures IsInStock(v) <==> exists q :: q >= 1 && CanOrder(v, q)
  {
    if IsInStock(v) {
      assert CanOrder(v, 1);
    }
  }

  // ---------------------------------------------------------------------
  // Text forms

  /** str(TyreModel): brand, a space, name. */
  function ModelLabel(m: TyreModel): (r: string)
    ensures |r| == |m.brand| + 1 + |m.name|
    ensures r[..|m.brand|] == m.brand && r[|m.brand|] == ' ' && r[|m.brand| + 1..] == m.name
  {
    m.brand + " " + m.name
  }

  /** str(TyreVariant): the model's text, then width/profile, " R" and the
      radius, then the speed index. */
  function VariantLabel(v: TyreVariant): (r: string)
    ensures var m := ModelLabel(v.model);
            |r| > |m| + 1 && r[..|m| + 1] == m + " "
    ensures LaidOut(r, ModelLabel(v.model), IntToString(v.width), IntToString(v.profile), IntToString(v.radius), v.speedIndex)
  {
    var r := ModelLabel(v.model) + " " + IntToString(v.width) + "/" + AfterWidth(v);
    LabelSlices(r, ModelLabel(v.model), IntToString(v.width), AfterWidth(v),
                IntToString(v.profile), IntToString(v.radius), v.speedIndex);
    r
  }

  function AfterWidth(v: TyreVariant): string {
    IntToString(v.profile) + " R" + IntToString(v.radius) + " " + v.speedIndex
  }

  /** s is m, a space, w, "/", pr, " R", rd, a space and sp, each part at
      its own place. */
  predicate LaidOut(s: string, m: string, w: string, pr: string, rd: string, sp: string) {
    var a := |m| + 2 + |w|;
    && |s| == a + |pr| + 3 + |rd| + |sp|
    && s[..|m|] == m
    && s[|m|] == ' '
    && s[|m| + 1..|m| + 1 + |w|] == w
    && s[|m| + 1 + |w|] == '/'
    && s[a..a + |pr|] == pr
    && s[a + |pr|..a + |pr| + 2] == " R"
    && s[a + |pr| + 2..a + |pr| + 2 + |rd|] == rd
    && s[a + |pr| + 2 + |rd|] == ' '
    && s[a + |pr| + 3 + |rd|..] == sp
  }

  /** The variant's text reads back field by field: the model's text and a
      space, the width, "/", the profile, " R", the radius, a space and the
      speed index, each number printed so that it parses back to itself. */
  lemma VariantLabelReadsBack(v: TyreVariant)
    ensures LaidOut(VariantLabel(v), ModelLabel(v.model), IntToString(v.width), IntToString(v.profile),
                    IntToString(v.radius), v.speedIndex)
    ensures ParseInt(IntToString(v.width)) == Some(v.width)
    ensures ParseInt(IntToString(v.profile)) == Some(v.profile)
    ensures ParseInt(IntToString(v.radius)) == Some(v.radius)
  {
    IntToStringParses(v.width);
    IntToStringParses(v.profile);
    IntToStringParses(v.radius);
  }

  /** Where each part of the variant's text sits, for any part texts. */
  lemma LabelSlices(s: string, m: string, w: string, t: string, pr: string, rd: string, sp: string)
    requires t == pr + " R" + rd + " " + sp
    requires s == m + " " + w + "/" + t
    ensures LaidOut(s, m, w, pr, rd, sp)
  {
    var a := |m| + 2 + |w|;
    LabelParts(m, w, t);
    AfterWidthParts(pr, rd, sp);
    assert s[a..] == t;
    assert s[a..a + |pr|] == t[..|pr|];
    assert s[a + |pr|..a + |pr| + 2] == t[|pr|..|pr| + 2];
    assert s[a + |pr| + 2..a + |pr| + 2 + |rd|] == t[|pr| + 2..|pr| + 2 + |rd|];
    assert s[a + |pr| + 3 + |rd|..] == t[|pr| + 3 + |rd|..];
  }

  /** Where the parts of pr + " R" + rd + " " + sp sit. */
  lemma AfterWidthParts(pr: string, rd: string, sp: string)
    ensures var t := pr + " R" + rd + " " + sp;
            && |t| == |pr| + 3 + |rd| + |sp|
            && t[..|pr|] == pr
            && t[|pr|..|pr| + 2] == " R"
            && t[|pr| + 2..|pr| + 2 + |rd|] == rd
            && t[|pr| + 2 + |rd|] == ' '
            && t[|pr| + 3 + |rd|..] == sp
  {
    var t := pr + " R" + rd + " " + sp;
    var u := pr + " R" + rd;
    assert t == u + (" " + sp);
    assert t[..|u|] == u;
    assert u[..|pr|] == pr;
    assert u[|pr|..|pr| + 2] == " R";
    assert u[|pr| + 2..] == rd;
  }

  /** Where the parts of m + " " + w + "/" + rest sit. */
  lemma LabelParts(m: string, w: string, rest: string)
    ensures var s := m + " " + w + "/" + rest;
            && |s| > |m| + 1 + |w|
            && s[..|m|] == m
            && s[|m|] == ' '
            && s[|m| + 1 + |w|] == '/'
            && s[|m| + 1..|m| + 1 + |w|] == w
  {
    var p := m + " " + w + "/";
    var s := p + rest;
    assert s[..|p|] == p;
    assert p[..|m|] == m;
    assert p[|m| + 1..|m| + 1 + |w|] == w;
  }

  // ---------------------------------------------------------------------
  // Categories

  datatype Category = Category(name: string, slug: string, description: string, kind: string, parent: Option<int>)

  /** get_absolute_url(). */
  function CategoryUrl(c: Category): (r: string)
    ensures |r| == |c.slug| + 10 && r[..9] == "/catalog/" && r[|r| - 1] == '/'
  {
    "/catalog/" + c.slug + "/"
  }

  /** The URL gives back the slug, so categories with distinct slugs (the slug
      is a unique field) have distinct URLs. */
  lemma CategoryUrlSlug(c: Category, d: Category)
    ensures |CategoryUrl(c)| == |c.slug| + 10
    ensures CategoryUrl(c)[9..|CategoryUrl(c)| - 1] == c.slug
    ensures c.slug != d.slug ==> CategoryUrl(c) != CategoryUrl(d)
  {
    var u, w := CategoryUrl(c), CategoryUrl(d);
    assert u[9..|u| - 1] == c.slug;
    assert w[9..|w| - 1] == d.slug;
  }

  // ---------------------------------------------------------------------
  // Favourites: one row per (user, variant)

  datatype Favourite = Favourite(user: int, variant: int, addedAt: int)

  predicate Marks(f: Favourite, user: int, variant: int) {
    f.user == user && f.variant == variant
  }

  /** The unique_together constraint on (user, variant): a table of favourites
      holds at most one row per pair. */
  predicate UniquePairs(rows: set<Favourite>) {
    forall f, g :: f in rows && g in rows && Marks(g, f.user, f.variant) ==> f == g
  }

  predicate HasFavourite(rows: set<Favourite>, user: int, variant: int) {
    exists f :: f in rows && Marks(f, user, variant)
  }

  /** Favourite.objects.create: a second row for the same pair is an integrity error. */
  function CreateFavourite(rows: set<Favourite>, user: int, variant: int, now: int): (r: Result<set<Favourite>, string>)
    requires UniquePairs(rows)
    ensures r.Success? <==> !HasFavourite(rows, user, variant)
    ensures r.Success? ==> r.value == rows + {Favourite(user, variant, now)} && UniquePairs(r.value)
  {
    if HasFavourite(rows, user, variant) then Failure("UNIQUE constraint failed")
    else Success(rows + {Favourite(user, variant, now)})
  }

  /** get_or_create in add_favourite: afterwards the pair is marked by exactly one row. */
  function GetOrCreateFavourite(rows: set<Favourite>, user: int, variant: int, now: int): (r: set<Favourite>)
    requires UniquePairs(rows)
    ensures UniquePairs(r) && HasFavourite(r, user, variant)
    ensures HasFavourite(rows, user, variant) ==> r == rows
    ensures !HasFavourite(rows, user, variant) ==> r == rows + {Favourite(user, variant, now)}
  {
    match CreateFavourite(rows, user, variant, now)
    case Success(created) =>
      assert Marks(Favourite(user, variant, now), user, variant);
      created
    case Failure(_) => rows
  }

  /** filter(user=..., variant=...).delete() in remove_favourite: the pair is
      no longer marked and every other row stays. */
  function RemoveFavourite(rows: set<Favourite>, user: int, variant: int): (r: set<Favourite>)
    requires UniquePairs(rows)
    ensures UniquePairs(r) && !HasFavourite(r, user, variant)
    ensures forall f :: f in rows && !Marks(f, user, variant) ==> f in r
    ensures r <= rows
  {
    set f | f in rows && !Marks(f, user, variant)
  }
}

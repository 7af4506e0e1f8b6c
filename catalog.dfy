/**
 * The card catalog `test_data`: country code -> {"customer_data", "debitcard"},
 * where "debitcard" maps a card type to a list of card records. Dict order is
 * kept as sequence order. Card records are objects (the window edits them in
 * place and finds them by identity); the nesting around them is a value.
 */
module Catalog {
  import opened Wrappers
  import opened Json

  /**
   * A card record of the catalog file. The window rewrites the four card
   * fields and the saved payload in place; the description is set when the
   * card is created and never changed.
   */
  class Card {
    var cardNumber: string
    var cardName: string
    var cardDueDate: string
    var cardCvv: string
    const description: string
    var customPayload: Option<Json>

    constructor (number: string, name: string, dueDate: string, cvv: string,
                 description: string, customPayload: Option<Json>)
      ensures this.cardNumber == number && this.cardName == name
      ensures this.cardDueDate == dueDate && this.cardCvv == cvv
      ensures this.description == description && this.customPayload == customPayload
    {
      this.cardNumber := number;
      this.cardName := name;
      this.cardDueDate := dueDate;
      this.cardCvv := cvv;
      this.description := description;
      this.customPayload := customPayload;
    }
  }

  /** The "customer_data" record of a country; values are copied into payloads as they are. */
  datatype Customer = Customer(name: Json, email: Json, phoneNumber: Json, birthDate: Json,
                               country: Json, currencyCode: Json, defaultAmount: Json)

  /** One card type of "debitcard" with its list of cards. */
  datatype CardGroup = CardGroup(cardType: string, cards: seq<Card>)

  datatype CountryEntry = CountryEntry(code: string, customer: Customer, debitcard: seq<CardGroup>)

  type Catalog = seq<CountryEntry>

  /** Where a card sits: `test_data[country]["debitcard"][cardType][index]`. */
  datatype CardPath = CardPath(country: string, cardType: string, index: nat)

  /** A card together with the path it was reached by. */
  datatype Slot = Slot(path: CardPath, card: Card)

  // ----------------------------------------------------------------------
  // Traversal in country -> type -> list order
  // ----------------------------------------------------------------------

  function GroupSlots(code: string, g: CardGroup): (r: seq<Slot>)
    ensures |r| == |g.cards|
  {
    seq(|g.cards|, k requires 0 <= k < |g.cards| => Slot(CardPath(code, g.cardType, k), g.cards[k]))
  }

  function CountrySlots(code: string, gs: seq<CardGroup>): seq<Slot> {
    if gs == [] then []
    else CountrySlots(code, gs[..|gs| - 1]) + GroupSlots(code, gs[|gs| - 1])
  }

  /** Every card of every "debitcard" list, visited as the source's nested loops visit them. */
  function Slots(cat: Catalog): seq<Slot> {
    if cat == [] then []
    else Slots(cat[..|cat| - 1]) + CountrySlots(cat[|cat| - 1].code, cat[|cat| - 1].debitcard)
  }

  /** The sum of the list lengths of some card groups. */
  function GroupsTotal(gs: seq<CardGroup>): nat {
    if gs == [] then 0 else GroupsTotal(gs[..|gs| - 1]) + |gs[|gs| - 1].cards|
  }

  /** The number of cards in the catalog: the sum of all list lengths. */
  function TotalCards(cat: Catalog): nat {
    if cat == [] then 0 else TotalCards(cat[..|cat| - 1]) + GroupsTotal(cat[|cat| - 1].debitcard)
  }

  lemma {:induction false} CountrySlotsCount(code: string, gs: seq<CardGroup>)
    ensures |CountrySlots(code, gs)| == GroupsTotal(gs)
  {
    if gs != [] {
      CountrySlotsCount(code, gs[..|gs| - 1]);
    }
  }

  /** The traversal yields exactly as many entries as the lists hold cards. */
  lemma {:induction false} SlotsCount(cat: Catalog)
    ensures |Slots(cat)| == TotalCards(cat)
  {
    if cat != [] {
      SlotsCount(cat[..|cat| - 1]);
      CountrySlotsCount(cat[|cat| - 1].code, cat[|cat| - 1].debitcard);
    }
  }

  lemma {:induction false} CountrySlotsPrefix(code: string, gs: seq<CardGroup>, n: nat)
    requires n <= |gs|
    ensures CountrySlots(code, gs[..n]) <= CountrySlots(code, gs)
    decreases |gs|
  {
    if n < |gs| {
      CountrySlotsPrefix(code, gs[..|gs| - 1], n);
      assert gs[..|gs| - 1][..n] == gs[..n];
    } else {
      assert gs[..n] == gs;
    }
  }

  lemma {:induction false} SlotsPrefix(cat: Catalog, n: nat)
    requires n <= |cat|
    ensures Slots(cat[..n]) <= Slots(cat)
    decreases |cat|
  {
    if n < |cat| {
      SlotsPrefix(cat[..|cat| - 1], n);
      assert cat[..|cat| - 1][..n] == cat[..n];
    } else {
      assert cat[..n] == cat;
    }
  }

  /** The number of cards before group `gi` of country `ci` in traversal order. */
  function Offset(cat: Catalog, ci: nat, gi: nat): nat
    requires ci < |cat| && gi <= |cat[ci].debitcard|
  {
    TotalCards(cat[..ci]) + GroupsTotal(cat[ci].debitcard[..gi])
  }

  /** Card `k` of group `gi` of country `ci` is entry `Offset(cat, ci, gi) + k` of the traversal. */
  lemma SlotsAt(cat: Catalog, ci: nat, gi: nat, k: nat)
    requires ci < |cat| && gi < |cat[ci].debitcard| && k < |cat[ci].debitcard[gi].cards|
    ensures Offset(cat, ci, gi) + k < |Slots(cat)|
    ensures Slots(cat)[Offset(cat, ci, gi) + k]
            == Slot(CardPath(cat[ci].code, cat[ci].debitcard[gi].cardType, k), cat[ci].debitcard[gi].cards[k])
  {
    var e := cat[ci];
    var gs := e.debitcard;
    var a := Slots(cat[..ci]);
    var b := CountrySlots(e.code, gs[..gi]);
    SlotsCount(cat[..ci]);
    CountrySlotsCount(e.code, gs[..gi]);
    CountrySlotAt(e.code, gs, gi, k);
    SlotsPrefix(cat, ci + 1);
    CatalogStep(cat, ci);
    assert Slots(cat)[|a| + |b| + k] == Slots(cat[..ci + 1])[|a| + |b| + k];
  }

  /** Card `k` of group `gi` comes after the entries of the groups before it. */
  lemma CountrySlotAt(code: string, gs: seq<CardGroup>, gi: nat, k: nat)
    requires gi < |gs| && k < |gs[gi].cards|
    ensures var b := CountrySlots(code, gs[..gi]);
            |b| + k < |CountrySlots(code, gs)|
            && CountrySlots(code, gs)[|b| + k] == Slot(CardPath(code, gs[gi].cardType, k), gs[gi].cards[k])
  {
    var b := CountrySlots(code, gs[..gi]);
    CountrySlotsPrefix(code, gs, gi + 1);
    CountryStep(code, gs, gi);
    assert CountrySlots(code, gs)[|b| + k] == CountrySlots(code, gs[..gi + 1])[|b| + k];
  }

  /** A slot produced by group `gi` of country `ci` at position `k`. */
  predicate SlotFrom(cat: Catalog, ci: int, gi: int, k: int, s: Slot) {
    0 <= ci < |cat| && 0 <= gi < |cat[ci].debitcard| && 0 <= k < |cat[ci].debitcard[gi].cards|
    && s == Slot(CardPath(cat[ci].code, cat[ci].debitcard[gi].cardType, k), cat[ci].debitcard[gi].cards[k])
  }

  lemma {:induction false} CountrySlotOrigin(code: string, gs: seq<CardGroup>, j: nat)
    requires j < |CountrySlots(code, gs)|
    ensures exists gi, k :: 0 <= gi < |gs| && 0 <= k < |gs[gi].cards|
              && CountrySlots(code, gs)[j] == Slot(CardPath(code, gs[gi].cardType, k), gs[gi].cards[k])
  {
    var init := gs[..|gs| - 1];
    if j < |CountrySlots(code, init)| {
      CountrySlotOrigin(code, init, j);
      var gi, k :| 0 <= gi < |init| && 0 <= k < |init[gi].cards|
                   && CountrySlots(code, init)[j] == Slot(CardPath(code, init[gi].cardType, k), init[gi].cards[k]);
      assert init[gi] == gs[gi];
    } else {
      var k := j - |CountrySlots(code, init)|;
      assert CountrySlots(code, gs)[j] == GroupSlots(code, gs[|gs| - 1])[k];
    }
  }

  /** Every entry of the traversal is some card of some list, reached by its own path. */
  lemma {:induction false} SlotOrigin(cat: Catalog, j: nat)
    requires j < |Slots(cat)|
    ensures exists ci, gi, k :: SlotFrom(cat, ci, gi, k, Slots(cat)[j])
  {
    var init := cat[..|cat| - 1];
    var last := cat[|cat| - 1];
    if j < |Slots(init)| {
      SlotOrigin(init, j);
      var ci, gi, k :| SlotFrom(init, ci, gi, k, Slots(init)[j]);
      assert init[ci] == cat[ci];
      assert SlotFrom(cat, ci, gi, k, Slots(cat)[j]);
    } else {
      var j' := j - |Slots(init)|;
      assert Slots(cat)[j] == CountrySlots(last.code, last.debitcard)[j'];
      CountrySlotOrigin(last.code, last.debitcard, j');
      var gi, k :| 0 <= gi < |last.debitcard| && 0 <= k < |last.debitcard[gi].cards|
                   && CountrySlots(last.code, last.debitcard)[j']
                      == Slot(CardPath(last.code, last.debitcard[gi].cardType, k), last.debitcard[gi].cards[k]);
      assert SlotFrom(cat, |cat| - 1, gi, k, Slots(cat)[j]);
    }
  }

  // ----------------------------------------------------------------------
  // The selector list
  // ----------------------------------------------------------------------

  /** The combo box text of a card: `f"{country} – {card['description']}"`. */
  function Display(country: string, description: string): string {
    country + " \U{2013} " + description
  }

  /** An entry `(display, country, card)` of `flatten_cards`. */
  datatype FlatCard = FlatCard(display: string, country: string, card: Card)

  function ToFlat(s: Slot): FlatCard {
    FlatCard(Display(s.path.country, s.card.description), s.path.country, s.card)
  }

  /** The selector entries for a sequence of slots, one per slot in order. */
  function FlatOf(ss: seq<Slot>): (r: seq<FlatCard>)
    ensures |r| == |ss|
  {
    if ss == [] then [] else FlatOf(ss[..|ss| - 1]) + [ToFlat(ss[|ss| - 1])]
  }

  /** Entry `j` of the selector entries is the entry of slot `j`. */
  lemma {:induction false} FlatOfAt(ss: seq<Slot>, j: nat)
    requires j < |ss|
    ensures FlatOf(ss)[j] == ToFlat(ss[j])
  {
    if j < |ss| - 1 {
      FlatOfAt(ss[..|ss| - 1], j);
    }
  }

  /** `flatten_cards()` of a catalog. */
  function Flatten(cat: Catalog): (r: seq<FlatCard>)
  {
    FlatOf(Slots(cat))
  }

  /** The selector list has one entry per card: its length is the sum of the list lengths. */
  lemma FlattenCount(cat: Catalog)
    ensures |Flatten(cat)| == TotalCards(cat)
  {
    SlotsCount(cat);
  }

  /**
   * Card `k` of type `gi` of country `ci` is the selector entry at its
   * position in country -> type -> list order, labelled `country – description`.
   */
  lemma FlattenAt(cat: Catalog, ci: nat, gi: nat, k: nat)
    requires ci < |cat| && gi < |cat[ci].debitcard| && k < |cat[ci].debitcard[gi].cards|
    ensures Offset(cat, ci, gi) + k < |Flatten(cat)|
    ensures Flatten(cat)[Offset(cat, ci, gi) + k]
            == FlatCard(Display(cat[ci].code, cat[ci].debitcard[gi].cards[k].description),
                        cat[ci].code, cat[ci].debitcard[gi].cards[k])
  {
    SlotsAt(cat, ci, gi, k);
    FlatOfAt(Slots(cat), Offset(cat, ci, gi) + k);
  }

  // ----------------------------------------------------------------------
  // Locating a card by identity
  // ----------------------------------------------------------------------

  /** `_find_card_path`: the path of the first entry holding `target` itself. */
  function FirstPath(ss: seq<Slot>, target: Card): Option<CardPath> {
    if ss == [] then None
    else if ss[0].card == target then Some(ss[0].path)
    else FirstPath(ss[1..], target)
  }

  lemma {:induction false} FirstPathAppend(p: seq<Slot>, q: seq<Slot>, target: Card)
    requires FirstPath(p, target) == None
    ensures FirstPath(p + q, target) == FirstPath(q, target)
  {
    if p != [] {
      assert p[0].card != target;
      assert (p + q)[0] == p[0];
      assert (p + q)[1..] == p[1..] + q;
      FirstPathAppend(p[1..], q, target);
      assert FirstPath(p + q, target) == FirstPath(p[1..] + q, target);
    } else {
      assert p + q == q;
    }
  }

  /** The search finds nothing exactly when no entry holds `target`, and otherwise the first that does. */
  lemma {:induction false} FirstPathSpec(ss: seq<Slot>, target: Card)
    ensures FirstPath(ss, target).None? <==> forall j :: 0 <= j < |ss| ==> ss[j].card != target
    ensures FirstPath(ss, target).Some? ==>
              exists j :: 0 <= j < |ss| && ss[j].card == target && ss[j].path == FirstPath(ss, target).value
                          && forall j' :: 0 <= j' < j ==> ss[j'].card != target
  {
    if ss != [] && ss[0].card != target {
      FirstPathSpec(ss[1..], target);
      if FirstPath(ss[1..], target).Some? {
        var j :| 0 <= j < |ss[1..]| && ss[1..][j].card == target && ss[1..][j].path == FirstPath(ss[1..], target).value
                 && forall j' :: 0 <= j' < j ==> ss[1..][j'].card != target;
        assert ss[j + 1] == ss[1..][j];
        forall j' | 0 <= j' < j + 1 ensures ss[j'].card != target {
          if j' > 0 { assert ss[j'] == ss[1..][j' - 1]; }
        }
      } else {
        forall j | 0 <= j < |ss| ensures ss[j].card != target {
          if j > 0 { assert ss[j] == ss[1..][j - 1]; }
        }
      }
    }
  }

  // ----------------------------------------------------------------------
  // Lookup by key
  // ----------------------------------------------------------------------

  /** The position of country `code` (dict lookup `test_data[code]`). */
  function FindCountry(cat: Catalog, code: string): (r: Option<nat>)
    ensures r.None? <==> forall i :: 0 <= i < |cat| ==> cat[i].code != code
    ensures r.Some? ==> r.value < |cat| && cat[r.value].code == code
                        && forall i :: 0 <= i < r.value ==> cat[i].code != code
  {
    if cat == [] then None
    else if cat[0].code == code then Some(0)
    else match FindCountry(cat[1..], code)
         case None => None
         case Some(i) => Some(i + 1)
  }

  /** The position of card type `t` (dict lookup `debitcard[t]`). */
  function FindGroup(gs: seq<CardGroup>, t: string): (r: Option<nat>)
    ensures r.None? <==> forall j :: 0 <= j < |gs| ==> gs[j].cardType != t
    ensures r.Some? ==> r.value < |gs| && gs[r.value].cardType == t
                        && forall j :: 0 <= j < r.value ==> gs[j].cardType != t
  {
    if gs == [] then None
    else if gs[0].cardType == t then Some(0)
    else match FindGroup(gs[1..], t)
         case None => None
         case Some(j) => Some(j + 1)
  }

  /** `debitcard[t]`, or None when the type is missing. */
  function GroupCards(gs: seq<CardGroup>, t: string): Option<seq<Card>> {
    match FindGroup(gs, t)
    case None => None
    case Some(j) => Some(gs[j].cards)
  }

  /** `test_data[c]["debitcard"][t]`, or None when a key is missing. */
  function CardList(cat: Catalog, c: string, t: string): Option<seq<Card>> {
    match FindCountry(cat, c)
    case None => None
    case Some(ci) => GroupCards(cat[ci].debitcard, t)
  }

  /** `test_data[c]["customer_data"]`. */
  function CustomerOf(cat: Catalog, c: string): Option<Customer> {
    match FindCountry(cat, c)
    case None => None
    case Some(ci) => Some(cat[ci].customer)
  }

  predicate UniqueTypes(gs: seq<CardGroup>) {
    forall i, j :: 0 <= i < j < |gs| ==> gs[i].cardType != gs[j].cardType
  }

  /** Dict keys are unique at both levels, as `json.load` delivers them. */
  predicate WellKeyed(cat: Catalog) {
    (forall i, j :: 0 <= i < j < |cat| ==> cat[i].code != cat[j].code)
    && (forall i :: 0 <= i < |cat| ==> UniqueTypes(cat[i].debitcard))
  }

  /** Following the path of any traversal entry by key leads back to that very card. */
  lemma Located(cat: Catalog, j: nat)
    requires WellKeyed(cat) && j < |Slots(cat)|
    ensures CustomerOf(cat, Slots(cat)[j].path.country).Some?
    ensures CardList(cat, Slots(cat)[j].path.country, Slots(cat)[j].path.cardType).Some?
    ensures Slots(cat)[j].path.index < |CardList(cat, Slots(cat)[j].path.country, Slots(cat)[j].path.cardType).value|
    ensures CardList(cat, Slots(cat)[j].path.country, Slots(cat)[j].path.cardType).value[Slots(cat)[j].path.index]
            == Slots(cat)[j].card
  {
    SlotOrigin(cat, j);
    var ci, gi, k :| SlotFrom(cat, ci, gi, k, Slots(cat)[j]);
    assert FindCountry(cat, cat[ci].code) == Some(ci);
    assert FindGroup(cat[ci].debitcard, cat[ci].debitcard[gi].cardType) == Some(gi);
  }

  // ----------------------------------------------------------------------
  // Adding a card
  // ----------------------------------------------------------------------

  /** `debitcard.setdefault(t, []).append(card)`. */
  function AppendToGroups(gs: seq<CardGroup>, t: string, card: Card): seq<CardGroup> {
    match FindGroup(gs, t)
    case Some(j) => gs[j := gs[j].(cards := gs[j].cards + [card])]
    case None => gs + [CardGroup(t, [card])]
  }

  /** `test_data[c]["debitcard"].setdefault(t, []).append(card)`; a missing country changes nothing. */
  function AppendCard(cat: Catalog, c: string, t: string, card: Card): Catalog {
    match FindCountry(cat, c)
    case None => cat
    case Some(ci) => cat[ci := cat[ci].(debitcard := AppendToGroups(cat[ci].debitcard, t, card))]
  }

  lemma {:induction false} FindCountrySameCodes(a: Catalog, b: Catalog, c: string)
    requires |a| == |b| && forall i :: 0 <= i < |a| ==> a[i].code == b[i].code
    ensures FindCountry(a, c) == FindCountry(b, c)
  {
    if a != [] {
      FindCountrySameCodes(a[1..], b[1..], c);
    }
  }

  lemma {:induction false} FindGroupSameTypes(a: seq<CardGroup>, b: seq<CardGroup>, t: string)
    requires |a| == |b| && forall j :: 0 <= j < |a| ==> a[j].cardType == b[j].cardType
    ensures FindGroup(a, t) == FindGroup(b, t)
  {
    if a != [] {
      FindGroupSameTypes(a[1..], b[1..], t);
    }
  }

  lemma {:induction false} FindGroupAppend(gs: seq<CardGroup>, g: CardGroup, t: string)
    ensures FindGroup(gs + [g], t)
            == if FindGroup(gs, t).Some? then FindGroup(gs, t) else if g.cardType == t then Some(|gs|) else None
  {
    if gs != [] {
      assert (gs + [g])[0] == gs[0];
      assert (gs + [g])[1..] == gs[1..] + [g];
      FindGroupAppend(gs[1..], g, t);
    }
  }

  lemma {:induction false} GroupsTotalUpdate(gs: seq<CardGroup>, j: nat, g: CardGroup)
    requires j < |gs|
    ensures GroupsTotal(gs[j := g]) + |gs[j].cards| == GroupsTotal(gs) + |g.cards|
    decreases |gs|
  {
    var n := |gs|;
    if j == n - 1 {
      assert gs[j := g][..n - 1] == gs[..n - 1];
    } else {
      GroupsTotalUpdate(gs[..n - 1], j, g);
      assert gs[j := g][..n - 1] == gs[..n - 1][j := g];
    }
  }

  lemma {:induction false} TotalCardsUpdate(cat: Catalog, i: nat, e: CountryEntry)
    requires i < |cat|
    ensures TotalCards(cat[i := e]) + GroupsTotal(cat[i].debitcard) == TotalCards(cat) + GroupsTotal(e.debitcard)
    decreases |cat|
  {
    var n := |cat|;
    if i == n - 1 {
      assert cat[i := e][..n - 1] == cat[..n - 1];
    } else {
      TotalCardsUpdate(cat[..n - 1], i, e);
      assert cat[i := e][..n - 1] == cat[..n - 1][i := e];
    }
  }

  lemma {:induction false} GroupsTotalConcat(a: seq<CardGroup>, b: seq<CardGroup>)
    ensures GroupsTotal(a + b) == GroupsTotal(a) + GroupsTotal(b)
    decreases |b|
  {
    if b == [] {
      assert a + b == a;
    } else {
      assert (a + b)[..|a + b| - 1] == a + b[..|b| - 1];
      GroupsTotalConcat(a, b[..|b| - 1]);
    }
  }

  /** Adding a card to an existing country raises the card count by exactly one. */
  lemma AppendCardCount(cat: Catalog, c: string, t: string, card: Card)
    requires FindCountry(cat, c).Some?
    ensures TotalCards(AppendCard(cat, c, t, card)) == TotalCards(cat) + 1
  {
    var ci := FindCountry(cat, c).value;
    var gs := cat[ci].debitcard;
    match FindGroup(gs, t)
    case Some(j) =>
      GroupsTotalUpdate(gs, j, gs[j].(cards := gs[j].cards + [card]));
      TotalCardsUpdate(cat, ci, cat[ci].(debitcard := AppendToGroups(gs, t, card)));
    case None =>
      assert (gs + [CardGroup(t, [card])])[..|gs|] == gs;
      TotalCardsUpdate(cat, ci, cat[ci].(debitcard := AppendToGroups(gs, t, card)));
  }

  /**
   * After adding `card` under `c`/`t`, that list is the old list (or a new
   * one) with `card` last, and every other list and every customer is unchanged.
   */
  lemma AppendCardLists(cat: Catalog, c: string, t: string, card: Card, c': string, t': string)
    requires FindCountry(cat, c).Some?
    ensures CardList(AppendCard(cat, c, t, card), c', t')
            == if c' == c && t' == t then Some(CardList(cat, c, t).GetOr([]) + [card]) else CardList(cat, c', t')
    ensures CustomerOf(AppendCard(cat, c, t, card), c') == CustomerOf(cat, c')
  {
    var ci := FindCountry(cat, c).value;
    var cat' := AppendCard(cat, c, t, card);
    FindCountrySameCodes(cat', cat, c');
    if c' == c {
      GroupCardsAppend(cat[ci].debitcard, t, card, t');
    }
  }


  lemma AppendCardWellKeyed(cat: Catalog, c: string, t: string, card: Card)
    requires WellKeyed(cat)
    ensures WellKeyed(AppendCard(cat, c, t, card))
  {
    if FindCountry(cat, c).Some? {
      var ci := FindCountry(cat, c).value;
      var gs := cat[ci].debitcard;
      assert UniqueTypes(AppendToGroups(gs, t, card));
    }
  }

  /**
   * A card added under `c`/`t` shows up in the refreshed selector list,
   * labelled with its country and description.
   */
  lemma AppendedCardListed(cat: Catalog, c: string, t: string, card: Card)
    requires FindCountry(cat, c).Some?
    ensures var flat := Flatten(AppendCard(cat, c, t, card));
            exists j :: 0 <= j < |flat| && flat[j] == FlatCard(Display(c, card.description), c, card)
  {
    var cat' := AppendCard(cat, c, t, card);
    var ci := FindCountry(cat, c).value;
    AppendCardLists(cat, c, t, card, c, t);
    FindCountrySameCodes(cat', cat, c);
    var gi := FindGroup(cat'[ci].debitcard, t).value;
    var k := |cat'[ci].debitcard[gi].cards| - 1;
    FlattenAt(cat', ci, gi, k);
  }

  /** The entry `save_new_card` selects as written: the last one of the refreshed list. */
  function LastEntry(flat: seq<FlatCard>): int {
    |flat| - 1
  }

  /** The entry the corrected `save_new_card` selects: the first one showing `card` itself, or -1. */
  function EntryOf(flat: seq<FlatCard>, card: Card): (r: int)
    ensures -1 <= r < |flat|
    ensures r == -1 <==> forall j :: 0 <= j < |flat| ==> flat[j].card != card
    ensures r >= 0 ==> flat[r].card == card && forall j :: 0 <= j < r ==> flat[j].card != card
  {
    if flat == [] then -1
    else if flat[0].card == card then 0
    else
      var r := EntryOf(flat[1..], card);
      assert forall j :: 1 <= j < |flat| ==> flat[j] == flat[1..][j - 1];
      if r == -1 then -1 else r + 1
  }

  /**
   * Adding card `n` to the visa list of the first of two countries: the
   * last entry of the refreshed list is the second country's card, not `n`.
   */
  lemma LastEntryMissesNewCard(a: Card, b: Card, n: Card, customer: Customer)
    requires n != b
    ensures var cat := [CountryEntry("NG", customer, [CardGroup("visa", [a])]),
                        CountryEntry("EG", customer, [CardGroup("visa", [b])])];
            var flat := Flatten(AppendCard(cat, "NG", "visa", n));
            LastEntry(flat) == 2 && flat[2].card == b && flat[2].card != n
  {
    var cat := [CountryEntry("NG", customer, [CardGroup("visa", [a])]),
                CountryEntry("EG", customer, [CardGroup("visa", [b])])];
    var cat' := [CountryEntry("NG", customer, [CardGroup("visa", [a, n])]),
                 CountryEntry("EG", customer, [CardGroup("visa", [b])])];
    assert FindCountry(cat, "NG") == Some(0);
    assert FindGroup(cat[0].debitcard, "visa") == Some(0);
    assert [a] + [n] == [a, n];
    assert AppendToGroups(cat[0].debitcard, "visa", n) == [CardGroup("visa", [a, n])];
    assert AppendCard(cat, "NG", "visa", n) == cat';
    FlattenCount(cat');
    var g0 := cat'[0].debitcard;
    var g1 := cat'[1].debitcard;
    assert g0[..0] == [] && g1[..0] == [];
    assert GroupsTotal(g0) == 2 && GroupsTotal(g1) == 1;
    var first := cat'[..1];
    assert first[..0] == [] && first[0] == cat'[0];
    assert TotalCards(first) == 2;
    assert cat'[..|cat'| - 1] == first;
    assert TotalCards(cat') == 3;
    FlattenAt(cat', 1, 0, 0);
    assert Offset(cat', 1, 0) == 2;
  }

  // ----------------------------------------------------------------------
  // Deleting a card
  // ----------------------------------------------------------------------

  /** `del debitcard[t][i]`, then `del debitcard[t]` if that list became empty. */
  function DeleteFromGroups(gs: seq<CardGroup>, t: string, i: nat): seq<CardGroup> {
    match FindGroup(gs, t)
    case None => gs
    case Some(j) =>
      if i >= |gs[j].cards| then gs
      else
        var rest := gs[j].cards[..i] + gs[j].cards[i + 1..];
        if rest == [] then gs[..j] + gs[j + 1..] else gs[j := gs[j].(cards := rest)]
  }

  /** The deletion step of `delete_current_card` at path `p`. */
  function DeleteCard(cat: Catalog, p: CardPath): Catalog {
    match FindCountry(cat, p.country)
    case None => cat
    case Some(ci) => cat[ci := cat[ci].(debitcard := DeleteFromGroups(cat[ci].debitcard, p.cardType, p.index))]
  }

  /** Deleting the card at a valid path lowers the card count by exactly one. */
  lemma DeleteCardCount(cat: Catalog, p: CardPath)
    requires CardList(cat, p.country, p.cardType).Some? && p.index < |CardList(cat, p.country, p.cardType).value|
    ensures TotalCards(DeleteCard(cat, p)) + 1 == TotalCards(cat)
  {
    var ci := FindCountry(cat, p.country).value;
    var gs := cat[ci].debitcard;
    DeleteFromGroupsCount(gs, p.cardType, p.index);
    TotalCardsUpdate(cat, ci, cat[ci].(debitcard := DeleteFromGroups(gs, p.cardType, p.index)));
  }

  lemma DeleteFromGroupsCount(gs: seq<CardGroup>, t: string, i: nat)
    requires GroupCards(gs, t).Some? && i < |GroupCards(gs, t).value|
    ensures GroupsTotal(DeleteFromGroups(gs, t, i)) + 1 == GroupsTotal(gs)
  {
    var j := FindGroup(gs, t).value;
    var l := gs[j].cards;
    var rest := l[..i] + l[i + 1..];
    if rest == [] {
      assert gs == gs[..j] + [gs[j]] + gs[j + 1..];
      GroupsTotalConcat(gs[..j] + [gs[j]], gs[j + 1..]);
      GroupsTotalConcat(gs[..j], [gs[j]]);
      GroupsTotalConcat(gs[..j], gs[j + 1..]);
      assert GroupsTotal([gs[j]]) == |l| by { assert [gs[j]][..0] == []; }
    } else {
      GroupsTotalUpdate(gs, j, gs[j].(cards := rest));
    }
  }

  /** The first group of type `t` is at `x`. */
  lemma FindGroupIs(gs: seq<CardGroup>, t: string, x: nat)
    requires x < |gs| && gs[x].cardType == t
    requires forall z :: 0 <= z < x ==> gs[z].cardType != t
    ensures FindGroup(gs, t) == Some(x)
  {
    assert FindGroup(gs, t).Some?;
  }

  /** Removing group `j` of a uniquely keyed list: its key is gone and every other key finds the same cards. */
  lemma GroupCardsRemove(gs: seq<CardGroup>, j: nat, t': string)
    requires j < |gs| && UniqueTypes(gs)
    ensures GroupCards(gs[..j] + gs[j + 1..], t') == if t' == gs[j].cardType then None else GroupCards(gs, t')
  {
    var r := gs[..j] + gs[j + 1..];
    if t' == gs[j].cardType || FindGroup(gs, t') == None {
      forall x | 0 <= x < |r| ensures r[x].cardType != t' {
        if x < j {
          assert r[x] == gs[x];
        } else {
          assert r[x] == gs[x + 1];
        }
      }
    } else {
      var x := FindGroup(gs, t').value;
      var y := if x < j then x else x - 1;
      assert r[y] == gs[x];
      forall z | 0 <= z < y ensures r[z].cardType != t' {
        if z < j {
          assert r[z] == gs[z];
        } else {
          assert r[z] == gs[z + 1];
        }
      }
      FindGroupIs(r, t', y);
    }
  }

  lemma GroupCardsAppend(gs: seq<CardGroup>, t: string, card: Card, t': string)
    ensures GroupCards(AppendToGroups(gs, t, card), t')
            == if t' == t then Some(GroupCards(gs, t).GetOr([]) + [card]) else GroupCards(gs, t')
  {
    match FindGroup(gs, t)
    case Some(j) =>
      FindGroupSameTypes(gs[j := gs[j].(cards := gs[j].cards + [card])], gs, t');
    case None =>
      FindGroupAppend(gs, CardGroup(t, [card]), t');
      var ng := gs + [CardGroup(t, [card])];
      if FindGroup(gs, t').Some? {
        assert ng[FindGroup(gs, t').value] == gs[FindGroup(gs, t').value];
      } else if t' == t {
        assert ng[|gs|] == CardGroup(t, [card]);
        assert GroupCards(gs, t).GetOr([]) + [card] == [card];
      }
  }

  lemma GroupCardsDelete(gs: seq<CardGroup>, t: string, i: nat, t': string)
    requires UniqueTypes(gs) && GroupCards(gs, t).Some? && i < |GroupCards(gs, t).value|
    ensures var l := GroupCards(gs, t).value;
            GroupCards(DeleteFromGroups(gs, t, i), t')
            == if t' == t then (if |l| == 1 then None else Some(l[..i] + l[i + 1..])) else GroupCards(gs, t')
  {
    var j := FindGroup(gs, t).value;
    var l := gs[j].cards;
    var rest := l[..i] + l[i + 1..];
    if rest == [] {
      GroupCardsRemove(gs, j, t');
    } else {
      FindGroupSameTypes(gs[j := gs[j].(cards := rest)], gs, t');
    }
  }

  /**
   * After deleting card `p.index` of `p.country`/`p.cardType`, that list has
   * lost exactly that entry, the type key is gone when the list became empty,
   * and every other list and every customer is unchanged.
   */
  lemma DeleteCardLists(cat: Catalog, p: CardPath, c': string, t': string)
    requires WellKeyed(cat)
    requires CardList(cat, p.country, p.cardType).Some? && p.index < |CardList(cat, p.country, p.cardType).value|
    ensures var l := CardList(cat, p.country, p.cardType).value;
            CardList(DeleteCard(cat, p), c', t')
            == if c' == p.country && t' == p.cardType then
                 (if |l| == 1 then None else Some(l[..p.index] + l[p.index + 1..]))
               else CardList(cat, c', t')
    ensures CustomerOf(DeleteCard(cat, p), c') == CustomerOf(cat, c')
  {
    var ci := FindCountry(cat, p.country).value;
    var cat' := DeleteCard(cat, p);
    FindCountrySameCodes(cat', cat, c');
    var found := FindCountry(cat, c');
    if found.Some? {
      var x := found.value;
      if x == ci {
        GroupCardsDelete(cat[ci].debitcard, p.cardType, p.index, t');
        assert CardList(cat', c', t') == GroupCards(DeleteFromGroups(cat[ci].debitcard, p.cardType, p.index), t');
      } else {
        assert cat'[x] == cat[x];
      }
    }
  }



  lemma DeleteCardWellKeyed(cat: Catalog, p: CardPath)
    requires WellKeyed(cat)
    ensures WellKeyed(DeleteCard(cat, p))
  {
    if FindCountry(cat, p.country).Some? {
      var ci := FindCountry(cat, p.country).value;
      DeleteFromGroupsUnique(cat[ci].debitcard, p.cardType, p.index);
    }
  }

  lemma DeleteFromGroupsUnique(gs: seq<CardGroup>, t: string, i: nat)
    requires UniqueTypes(gs)
    ensures UniqueTypes(DeleteFromGroups(gs, t, i))
  {
    if FindGroup(gs, t).Some? {
      var j := FindGroup(gs, t).value;
      var r := gs[..j] + gs[j + 1..];
      forall x | 0 <= x < |r| ensures r[x] == gs[if x < j then x else x + 1] {}
    }
  }

  // ----------------------------------------------------------------------
  // The steps of the nested loops over the catalog
  // ----------------------------------------------------------------------

  /** Finishing group `gi` of a country adds that group's entries to the country's entries so far. */
  lemma CountryStep(code: string, gs: seq<CardGroup>, gi: nat)
    requires gi < |gs|
    ensures CountrySlots(code, gs[..gi + 1]) == CountrySlots(code, gs[..gi]) + GroupSlots(code, gs[gi])
  {
    assert gs[..gi + 1][..gi] == gs[..gi];
  }

  /** Finishing country `ci` adds that country's entries to the entries so far. */
  lemma CatalogStep(cat: Catalog, ci: nat)
    requires ci < |cat|
    ensures Slots(cat[..ci + 1]) == Slots(cat[..ci]) + CountrySlots(cat[ci].code, cat[ci].debitcard)
  {
    assert cat[..ci + 1][..ci] == cat[..ci];
  }

  /** The selector entries of the traversal grow one entry per visited card. */
  lemma FlatOfSnoc(ss: seq<Slot>, s: Slot)
    ensures FlatOf(ss + [s]) == FlatOf(ss) + [ToFlat(s)]
  {
    assert (ss + [s])[..|ss|] == ss;
  }

  /** A path found by identity leads back, key by key, to the card it was searched for. */
  lemma FoundPathLocated(cat: Catalog, target: Card)
    requires WellKeyed(cat) && FirstPath(Slots(cat), target).Some?
    ensures var p := FirstPath(Slots(cat), target).value;
            CustomerOf(cat, p.country).Some? && FindCountry(cat, p.country).Some?
            && CardList(cat, p.country, p.cardType).Some?
            && p.index < |CardList(cat, p.country, p.cardType).value|
            && CardList(cat, p.country, p.cardType).value[p.index] == target
  {
    FirstPathSpec(Slots(cat), target);
    var j :| 0 <= j < |Slots(cat)| && Slots(cat)[j].card == target
             && Slots(cat)[j].path == FirstPath(Slots(cat), target).value
             && forall j' :: 0 <= j' < j ==> Slots(cat)[j'].card != target;
    Located(cat, j);
  }

  /** Every card in the selector list is found by `_find_card_path`. */
  lemma ListedCardFound(cat: Catalog, j: nat)
    requires j < |Flatten(cat)|
    ensures FirstPath(Slots(cat), Flatten(cat)[j].card).Some?
  {
    FirstPathSpec(Slots(cat), Flatten(cat)[j].card);
    FlatOfAt(Slots(cat), j);
  }

  /**
   * After adding `card` under the path of an existing country, the catalog
   * stays well keyed, the selector list grows by one and shows `card`.
   */
  lemma AddedCardShown(cat: Catalog, p: CardPath, card: Card)
    requires WellKeyed(cat) && FindCountry(cat, p.country).Some?
    ensures var cat' := AppendCard(cat, p.country, p.cardType, card);
            WellKeyed(cat') && |Flatten(cat')| == |Flatten(cat)| + 1 && EntryOf(Flatten(cat'), card) >= 0
  {
    AppendCardWellKeyed(cat, p.country, p.cardType, card);
    AppendedCardListed(cat, p.country, p.cardType, card);
    AppendCardCount(cat, p.country, p.cardType, card);
    FlattenCount(cat);
    FlattenCount(AppendCard(cat, p.country, p.cardType, card));
  }

  /**
   * Deleting the card found by identity keeps the catalog well keyed and
   * shortens the selector list by one.
   */
  lemma DeletedCardGone(cat: Catalog, target: Card)
    requires WellKeyed(cat) && FirstPath(Slots(cat), target).Some?
    ensures var cat' := DeleteCard(cat, FirstPath(Slots(cat), target).value);
            WellKeyed(cat') && |Flatten(cat')| + 1 == |Flatten(cat)|
  {
    var p := FirstPath(Slots(cat), target).value;
    FoundPathLocated(cat, target);
    DeleteCardWellKeyed(cat, p);
    DeleteCardCount(cat, p);
    FlattenCount(cat);
    FlattenCount(DeleteCard(cat, p));
  }

  /** Visiting card `k` of a group extends the group's visited entries by that card's slot. */
  lemma GroupSlotsSnoc(code: string, g: CardGroup, k: nat)
    requires k < |g.cards|
    ensures GroupSlots(code, g)[..k + 1] == GroupSlots(code, g)[..k] + [Slot(CardPath(code, g.cardType, k), g.cards[k])]
  {
  }

  lemma {:induction false} FlatOfConcat(a: seq<Slot>, b: seq<Slot>)
    ensures FlatOf(a + b) == FlatOf(a) + FlatOf(b)
    decreases |b|
  {
    if b == [] {
      assert a + b == a;
    } else {
      var b' := b[..|b| - 1];
      assert (a + b)[..|a + b| - 1] == a + b';
      FlatOfConcat(a, b');
    }
  }

  /** Once `target` is among the first entries, the entries after them do not change the result. */
  lemma {:induction false} FirstPathFound(p: seq<Slot>, q: seq<Slot>, target: Card)
    requires FirstPath(p, target).Some?
    ensures FirstPath(p + q, target) == FirstPath(p, target)
  {
    assert (p + q)[0] == p[0];
    if p[0].card != target {
      assert (p + q)[1..] == p[1..] + q;
      FirstPathFound(p[1..], q, target);
    }
  }

  /** A card found among the entries of the first `n` groups is found there in the whole country. */
  lemma CountryFoundInPrefix(code: string, gs: seq<CardGroup>, n: nat, target: Card)
    requires n <= |gs| && FirstPath(CountrySlots(code, gs[..n]), target).Some?
    ensures FirstPath(CountrySlots(code, gs), target) == FirstPath(CountrySlots(code, gs[..n]), target)
  {
    var a := CountrySlots(code, gs[..n]);
    var all := CountrySlots(code, gs);
    CountrySlotsPrefix(code, gs, n);
    assert all == a + all[|a|..];
    FirstPathFound(a, all[|a|..], target);
  }

  /** A card found among the entries of the first `n` countries is found there in the whole catalog. */
  lemma FoundInPrefix(cat: Catalog, n: nat, target: Card)
    requires n <= |cat| && FirstPath(Slots(cat[..n]), target).Some?
    ensures FirstPath(Slots(cat), target) == FirstPath(Slots(cat[..n]), target)
  {
    var a := Slots(cat[..n]);
    var all := Slots(cat);
    SlotsPrefix(cat, n);
    assert all == a + all[|a|..];
    FirstPathFound(a, all[|a|..], target);
  }
}

/**
 * The deterministic shape of what the workflow sends to the forms service:
 * one three-item block per weekday (an image, an optional soup question, a
 * required main-course question), and what inserting such blocks does to
 * the list of items in a form.
 */
module FormRequests {

  import opened Wrappers

  /** The five working days, in the order the workflow lists them. */
  datatype Day = Monday | Tuesday | Wednesday | Thursday | Friday

  const Days: seq<Day> := [Monday, Tuesday, Wednesday, Thursday, Friday]

  function DayName(d: Day): string {
    match d
    case Monday => "Monday"
    case Tuesday => "Tuesday"
    case Wednesday => "Wednesday"
    case Thursday => "Thursday"
    case Friday => "Friday"
  }

  /** Position of a day in `Days`. */
  function DayIndex(d: Day): (i: nat)
    ensures i < |Days| && Days[i] == d
    ensures forall j :: 0 <= j < |Days| && Days[j] == d ==> j == i
  {
    match d
    case Monday => 0
    case Tuesday => 1
    case Wednesday => 2
    case Thursday => 3
    case Friday => 4
  }

  /** `Days` lists every day. */
  lemma EveryDayListed()
    ensures forall d: Day :: d in Days
  {
    forall d: Day ensures d in Days {
      assert Days[DayIndex(d)] == d;
    }
  }

  /** One dish read off a menu photo. */
  datatype MenuItem = MenuItem(name: string, allergens: string)

  /** An item of a form: an image, or a single-choice (radio) question. */
  datatype FormItem =
    | ImageItem(title: string, sourceUri: string)
    | ChoiceQuestion(title: string, required: bool, choiceType: string, options: seq<string>)

  /** A `createItem` request: put `item` at position `index`. */
  datatype CreateItem = CreateItem(item: FormItem, index: nat)

  /** The dish names, in menu order. */
  function Names(menu: seq<MenuItem>): (r: seq<string>)
    ensures |r| == |menu|
    ensures forall i :: 0 <= i < |menu| ==> r[i] == menu[i].name
  {
    if menu == [] then [] else [menu[0].name] + Names(menu[1..])
  }

  lemma {:induction false} NamesAppend(a: seq<MenuItem>, b: seq<MenuItem>)
    ensures Names(a + b) == Names(a) + Names(b)
  {
  }

  /** `menu[:2]` followed by `menu[2:]` is the whole menu. */
  lemma SoupThenMain(menu: seq<MenuItem>)
    ensures Names(SoupDishes(menu)) + Names(MainDishes(menu)) == Names(menu)
  {
    if |menu| > 2 {
      assert menu == menu[..2] + menu[2..];
      NamesAppend(menu[..2], menu[2..]);
    }
  }

  /** `menu[:2]`: the first two dishes are the soups. */
  function SoupDishes(menu: seq<MenuItem>): seq<MenuItem> {
    if |menu| <= 2 then menu else menu[..2]
  }

  /** `menu[2:]`: every dish after the first two is a main course. */
  function MainDishes(menu: seq<MenuItem>): seq<MenuItem> {
    if |menu| <= 2 then [] else menu[2..]
  }

  /** The public view URL of a Drive file. */
  function ImageUrl(imageId: string): string {
    "https://drive.google.com/uc?id=" + imageId
  }

  function SoupTitle(day: Day): string {
    "Choose your soup for " + DayName(day) + ":"
  }

  function MainTitle(day: Day): string {
    "Choose your main course for " + DayName(day) + ":"
  }

  /** The three items of one day's block, in display order. */
  function DayBlock(day: Day, imageUrl: string, menu: seq<MenuItem>): seq<FormItem> {
    [ ImageItem(" ", imageUrl),
      ChoiceQuestion(SoupTitle(day), false, "RADIO", Names(SoupDishes(menu))),
      ChoiceQuestion(MainTitle(day), true, "RADIO", Names(MainDishes(menu))) ]
  }

  /** The request batch for one day (`create_form_update_requests`). */
  function DayRequests(day: Day, imageUrl: string, menu: seq<MenuItem>): seq<CreateItem> {
    var block := DayBlock(day, imageUrl, menu);
    [CreateItem(block[0], 0), CreateItem(block[1], 1), CreateItem(block[2], 2)]
  }

  /** A day's batch puts the block's three items at indices 0, 1 and 2, in order. */
  lemma DayRequestsPlaces(day: Day, imageUrl: string, menu: seq<MenuItem>)
    ensures var r := DayRequests(day, imageUrl, menu);
      |r| == 3 && forall i :: 0 <= i < 3 ==> r[i].index == i && r[i].item == DayBlock(day, imageUrl, menu)[i]
  {
  }

  /**
   * The block: the image with a blank title, then the optional soup
   * question, then the required main-course question, both single-choice.
   */
  lemma DayBlockShape(day: Day, imageUrl: string, menu: seq<MenuItem>)
    ensures var b := DayBlock(day, imageUrl, menu);
      |b| == 3
      && b[0] == ImageItem(" ", imageUrl)
      && b[1].ChoiceQuestion? && !b[1].required && b[1].title == SoupTitle(day) && b[1].choiceType == "RADIO"
      && b[2].ChoiceQuestion? && b[2].required && b[2].title == MainTitle(day) && b[2].choiceType == "RADIO"
  {
  }

  /**
   * The soup options followed by the main-course options are all dish
   * names in menu order; the first two dishes are the soups.
   */
  lemma DayBlockOptions(day: Day, imageUrl: string, menu: seq<MenuItem>)
    ensures var b := DayBlock(day, imageUrl, menu);
      b[1].options + b[2].options == Names(menu)
      && (|menu| <= 2 ==> b[1].options == Names(menu) && b[2].options == [])
      && (|menu| >= 2 ==> b[1].options == Names(menu[..2]) && b[2].options == Names(menu[2..]))
  {
    SoupThenMain(menu);
    SoupsFirst(menu);
  }

  /** The soups are the first two dishes (all of them when there are fewer), the main courses the rest. */
  lemma SoupsFirst(menu: seq<MenuItem>)
    ensures |menu| <= 2 ==> SoupDishes(menu) == menu && MainDishes(menu) == []
    ensures |menu| >= 2 ==> SoupDishes(menu) == menu[..2] && MainDishes(menu) == menu[2..]
  {
    if |menu| == 2 {
      assert menu[..2] == menu && menu[2..] == [];
    }
  }

  // ---------------------------------------------------------------------
  // What the requests do to a form's item list
  // ---------------------------------------------------------------------

  /** One `createItem`: insert at the index; an index past the end is rejected. */
  function Insert(form: seq<FormItem>, req: CreateItem): (r: Option<seq<FormItem>>)
    ensures r.Some? <==> req.index <= |form|
    ensures r.Some? ==> |r.value| == |form| + 1 && r.value[req.index] == req.item
    ensures r.Some? ==> forall j :: 0 <= j < req.index ==> r.value[j] == form[j]
    ensures r.Some? ==> forall j :: req.index < j < |r.value| ==> r.value[j] == form[j - 1]
  {
    if req.index <= |form| then Some(form[..req.index] + [req.item] + form[req.index..]) else None
  }

  /** One `batchUpdate`: the requests in order, the whole batch rejected if one is. */
  function ApplyBatch(form: seq<FormItem>, reqs: seq<CreateItem>): Option<seq<FormItem>>
    decreases |reqs|
  {
    if reqs == [] then Some(form)
    else match Insert(form, reqs[0])
      case None => None
      case Some(f) => ApplyBatch(f, reqs[1..])
  }

  /** Several `batchUpdate` calls, one after the other. */
  function ApplyInOrder(form: seq<FormItem>, batches: seq<seq<CreateItem>>): Option<seq<FormItem>>
    decreases |batches|
  {
    if batches == [] then Some(form)
    else match ApplyBatch(form, batches[0])
      case None => None
      case Some(f) => ApplyInOrder(f, batches[1..])
  }

  /** A day's batch puts its whole block in front of whatever the form holds. */
  lemma DayRequestsPrepend(form: seq<FormItem>, day: Day, imageUrl: string, menu: seq<MenuItem>)
    ensures ApplyBatch(form, DayRequests(day, imageUrl, menu)) == Some(DayBlock(day, imageUrl, menu) + form)
  {
    DayRequestsPlaces(day, imageUrl, menu);
    var r := DayRequests(day, imageUrl, menu);
    var b := DayBlock(day, imageUrl, menu);
    var f1 := [b[0]] + form;
    var f2 := [b[0], b[1]] + form;
    assert Insert(form, r[0]) == Some(f1) by {
      assert form[..0] + [b[0]] + form[0..] == f1;
    }
    assert Insert(f1, r[1]) == Some(f2) by {
      assert f1[..1] + [b[1]] + f1[1..] == f2;
    }
    assert Insert(f2, r[2]) == Some(b + form) by {
      assert f2[..2] + [b[2]] + f2[2..] == b + form;
    }
    assert ApplyBatch(b + form, r[1..][1..][1..]) == Some(b + form);
    assert ApplyBatch(f2, r[1..][1..]) == Some(b + form);
    assert ApplyBatch(f1, r[1..]) == Some(b + form);
  }

  lemma {:induction false} ApplyInOrderAppend(form: seq<FormItem>, a: seq<seq<CreateItem>>, b: seq<seq<CreateItem>>)
    ensures ApplyInOrder(form, a + b) ==
            match ApplyInOrder(form, a) case None => None case Some(f) => ApplyInOrder(f, b)
    decreases |a|
  {
    if a != [] {
      assert (a + b)[0] == a[0] && (a + b)[1..] == a[1..] + b;
      match ApplyBatch(form, a[0])
      case None =>
      case Some(f) => ApplyInOrderAppend(f, a[1..], b);
    } else {
      assert a + b == b;
    }
  }

  /** One batch on its own. */
  lemma ApplySingle(form: seq<FormItem>, batch: seq<CreateItem>)
    ensures ApplyInOrder(form, [batch]) == ApplyBatch(form, batch)
  {
    assert [batch][1..] == [];
  }

  /** A day that gets a block: its name, image URL and menu. */
  datatype DayEntry = DayEntry(day: Day, imageUrl: string, menu: seq<MenuItem>)

  function Batch(e: DayEntry): seq<CreateItem> {
    DayRequests(e.day, e.imageUrl, e.menu)
  }

  /** The blocks of the entries, first entry first. */
  function Blocks(es: seq<DayEntry>): seq<FormItem> {
    if es == [] then [] else DayBlock(es[0].day, es[0].imageUrl, es[0].menu) + Blocks(es[1..])
  }

  /** The entries' batches, last entry first. */
  function ReversedBatches(es: seq<DayEntry>): seq<seq<CreateItem>> {
    if es == [] then [] else ReversedBatches(es[1..]) + [Batch(es[0])]
  }

  /**
   * Every batch inserts at indices 0..2, so sending the days last-first
   * leaves their blocks first-first, in front of what the form held.
   */
  lemma {:induction false} ReverseInsertionRestoresOrder(form: seq<FormItem>, es: seq<DayEntry>)
    ensures ApplyInOrder(form, ReversedBatches(es)) == Some(Blocks(es) + form)
    decreases |es|
  {
    if es == [] {
      assert Blocks(es) + form == form;
    } else {
      var e := es[0];
      var earlier := ReversedBatches(es[1..]);
      var rest := Blocks(es[1..]) + form;
      var block := DayBlock(e.day, e.imageUrl, e.menu);
      assert ReversedBatches(es) == earlier + [Batch(e)];
      ReverseInsertionRestoresOrder(form, es[1..]);
      ApplyInOrderAppend(form, earlier, [Batch(e)]);
      ApplySingle(rest, Batch(e));
      DayRequestsPrepend(rest, e.day, e.imageUrl, e.menu);
      AppendAssoc(block, Blocks(es[1..]), form);
    }
  }
}

/**
 * The states of the two dialogues, the reply-keyboard buttons, and the
 * handlers that choose the next state from keywords in the message
 * (bot/bosko_bot.py:40-49, 272-292, 374-404, 643-701, 913-977).
 */
module Routing {

  import opened Text
  import opened Catalog

  /**
   * Conversation states. The first seven belong to the add-favorite dialogue,
   * the next three to the daily-updates dialogue; `End` is
   * `ConversationHandler.END`, no dialogue in progress.
   */
  datatype State =
    | ChoosingFavoriteType
    | SearchingFlavor
    | SelectingFlavors
    | SearchingShop
    | SelectingShop
    | ChoosingCity
    | SelectingShopFromCity
    | SetupDailyUpdates
    | SelectingTime
    | SelectingDays
    | End
  {
    /** The number the bot gives the state; `END` is -1. */
    function Number(): (n: int)
      ensures -1 <= n < 10
      ensures (n == -1) == (this == End)
    {
      match this
      case ChoosingFavoriteType => 0
      case SearchingFlavor => 1
      case SelectingFlavors => 2
      case SearchingShop => 3
      case SelectingShop => 4
      case ChoosingCity => 5
      case SelectingShopFromCity => 6
      case SetupDailyUpdates => 7
      case SelectingTime => 8
      case SelectingDays => 9
      case End => -1
    }

    predicate OfFavorites() {
      0 <= Number() < 7
    }

    predicate OfDailyUpdates() {
      7 <= Number() < 10
    }
  }

  /** Distinct states carry distinct numbers. */
  lemma NumbersDistinct(s: State, t: State)
    ensures s.Number() == t.Number() ==> s == t
  {
  }

  /** An incoming message: plain text, or a bot command (`/name`). */
  datatype Input = Text(text: string) | Command(name: string)

  const FlavorsButton: string := "\U{1F366} Flavors"
  const ShopsButton: string := "\U{1F3EA} Shops"
  const CancelButton: string := "\U{274C} Cancel"
  const DoneButton: string := "\U{2705} Done selecting"
  const ByNameButton: string := "\U{1F3EA} Search by shop name"
  const ByCityButton: string := "\U{1F3D9}\U{FE0F} Browse by city"
  const SetUpdatesButton: string := "\U{23F0} Set Daily Updates"
  const ViewSettingsButton: string := "\U{1F4CB} View Current Settings"
  const AllDaysButton: string := "\U{1F5D3}\U{FE0F} All days"
  const WeekdaysButton: string := "\U{1F4BC} Weekdays only"

  /**
   * `filters.Regex("^<button>$")`: the pattern is searched for, and `$` also
   * matches just before a final newline. A matching message is the button's
   * text, perhaps followed by one newline.
   */
  function MatchesButton(text: string, button: string): (b: bool)
    ensures b ==> |button| <= |text| <= |button| + 1 && text[..|button|] == button
    ensures b && |text| > |button| ==> text[|button|] == '\n'
  {
    text == button || text == button + "\n"
  }

  /** The states whose handlers take only their keyboard buttons, not arbitrary text. */
  predicate ButtonsOnly(state: State) {
    state == ChoosingFavoriteType || state == SearchingShop || state == SetupDailyUpdates
  }

  /**
   * `text` is one of the buttons the handlers of `state` are registered for;
   * only the button-only states have such buttons.
   */
  function ButtonOf(state: State, text: string): (b: bool)
    ensures b ==> ButtonsOnly(state)
  {
    match state
    case ChoosingFavoriteType => MatchesButton(text, FlavorsButton) || MatchesButton(text, ShopsButton)
    case SearchingShop => MatchesButton(text, ByNameButton) || MatchesButton(text, ByCityButton)
    case SetupDailyUpdates => MatchesButton(text, SetUpdatesButton) || MatchesButton(text, ViewSettingsButton)
    case _ => false
  }

  /** Lower-casing a button's message gives the lower-cased button, perhaps followed by a newline. */
  lemma LowerButtonText(text: string, button: string)
    requires MatchesButton(text, button)
    ensures Lower(text) == Lower(button) || Lower(text) == Lower(button) + "\n"
  {
    if text != button {
      LowerAppend(button, "\n");
    }
  }

  /** The words on the buttons, lower-cased, are the keywords the handlers look for. */
  lemma KeywordSpellings()
    ensures Lower("Flavor") == "flavor" && Lower("Shop") == "shop"
    ensures Lower("shop name") == "shop name" && Lower("city") == "city"
    ensures Lower("Set Daily Updates") == "set daily updates"
  {
    LowerAppend("Set Daily", " Updates");
  }

  /** A message matching a button that spells `word` contains `word` lower-cased. */
  lemma ButtonKeyword(text: string, button: string, prefix: string, word: string, suffix: string)
    requires MatchesButton(text, button) && button == prefix + word + suffix
    ensures Contains(Lower(text), Lower(word))
  {
    LowerButtonText(text, button);
    LowerAppend(prefix + word, suffix);
    LowerAppend(prefix, word);
    var l := Lower(button);
    assert l == Lower(prefix) + Lower(word) + Lower(suffix);
    assert l[|prefix|..|prefix| + |word|] == Lower(word);
    ContainsAt(l, Lower(word), |prefix|);
    if Lower(text) != l {
      ContainsExtend(l, "\n", Lower(word));
    }
  }

  /**
   * A keyword holding a lower-case letter that the button has in neither case
   * is found in no message matching the button.
   */
  lemma ButtonLacksKeyword(text: string, button: string, keyword: string, j: int)
    requires MatchesButton(text, button) && 0 <= j < |keyword| && 'a' <= keyword[j] <= 'z'
    requires keyword[j] !in button && (keyword[j] as int - 32) as char !in button
    ensures !Contains(Lower(text), keyword)
  {
    forall k | 0 <= k < |Lower(text)| ensures Lower(text)[k] != keyword[j] {
      if k < |button| {
        assert text[k] == button[k] && button[k] in button;
      }
    }
    NotContainsChar(Lower(text), keyword, j);
  }

  /** `choose_favorite_type`: "flavor" anywhere in the lower-cased text wins over "shop". */
  function ChooseFavoriteType(text: string): (next: State)
    ensures next == SearchingFlavor || next == SearchingShop || next == End
    ensures next == SearchingFlavor <==> Contains(Lower(text), "flavor")
    ensures next == End <==> !Contains(Lower(text), "flavor") && !Contains(Lower(text), "shop")
  {
    var t := Lower(text);
    if Contains(t, "flavor") then SearchingFlavor
    else if Contains(t, "shop") then SearchingShop
    else End
  }

  /** The two buttons offered in `ChoosingFavoriteType` lead to the two searches. */
  lemma FavoriteTypeButtons(text: string)
    ensures MatchesButton(text, FlavorsButton) ==> ChooseFavoriteType(text) == SearchingFlavor
    ensures MatchesButton(text, ShopsButton) ==> ChooseFavoriteType(text) == SearchingShop
  {
    if MatchesButton(text, FlavorsButton) {
      ButtonKeyword(text, FlavorsButton, "\U{1F366} ", "Flavor", "s");
      KeywordSpellings();
    }
    if MatchesButton(text, ShopsButton) {
      ButtonLacksKeyword(text, ShopsButton, "flavor", 0);
      ButtonKeyword(text, ShopsButton, "\U{1F3EA} ", "Shop", "s");
      KeywordSpellings();
    }
  }

  /** `handle_daily_updates_choice`: only "set daily updates" leads on; viewing and anything else end the dialogue. */
  function HandleDailyUpdatesChoice(text: string): (next: State)
    ensures next == SelectingTime || next == End
    ensures next == SelectingTime <==> Contains(Lower(text), "set daily updates")
  {
    if Contains(Lower(text), "set daily updates") then SelectingTime else End
  }

  /** Of the two buttons offered in `SetupDailyUpdates`, only the first goes on to ask for a time. */
  lemma DailyUpdatesButtons(text: string)
    ensures MatchesButton(text, SetUpdatesButton) ==> HandleDailyUpdatesChoice(text) == SelectingTime
    ensures MatchesButton(text, ViewSettingsButton) ==> HandleDailyUpdatesChoice(text) == End
  {
    if MatchesButton(text, SetUpdatesButton) {
      SetUpdatesKeyword(text);
    }
    if MatchesButton(text, ViewSettingsButton) {
      ViewSettingsKeyword(text);
    }
  }

  lemma SetUpdatesKeyword(text: string)
    requires MatchesButton(text, SetUpdatesButton)
    ensures Contains(Lower(text), "set daily updates")
  {
    ButtonKeyword(text, SetUpdatesButton, "\U{23F0} ", "Set Daily Updates", "");
    KeywordSpellings();
  }

  lemma ViewSettingsKeyword(text: string)
    requires MatchesButton(text, ViewSettingsButton)
    ensures !Contains(Lower(text), "set daily updates")
  {
    ButtonLacksKeyword(text, ViewSettingsButton, "set daily updates", 7);
  }

  /**
   * `search_shop_method`: "shop name" leads to the name search; "city" to the
   * city list, unless no shop has a city; anything else ends the dialogue.
   */
  method SearchShopMethod(text: string, catalog: seq<Shop>) returns (next: State)
    ensures Contains(Lower(text), "shop name") ==> next == SelectingShop
    ensures !Contains(Lower(text), "shop name") && Contains(Lower(text), "city") ==>
              next == (if CityNames(catalog) == {} then End else ChoosingCity)
    ensures !Contains(Lower(text), "shop name") && !Contains(Lower(text), "city") ==> next == End
    ensures MatchesButton(text, ByNameButton) ==> next == SelectingShop
    ensures MatchesButton(text, ByCityButton) ==> next == (if CityNames(catalog) == {} then End else ChoosingCity)
  {
    ShopMethodButtons(text);
    var t := Lower(text);
    if Contains(t, "shop name") {
      next := SelectingShop;
    } else if Contains(t, "city") {
      var cities := GetUniqueCities(catalog);
      if cities == [] {
        assert CityNames(catalog) == {};
        next := End;
      } else {
        assert cities[0] in CityNames(catalog);
        next := ChoosingCity;
      }
    } else {
      next := End;
    }
  }

  /** The keywords `search_shop_method` looks for single out its two buttons. */
  lemma ShopMethodButtons(text: string)
    ensures MatchesButton(text, ByNameButton) ==> Contains(Lower(text), "shop name")
    ensures MatchesButton(text, ByCityButton) ==>
              !Contains(Lower(text), "shop name") && Contains(Lower(text), "city")
  {
    if MatchesButton(text, ByNameButton) {
      ByNameKeyword(text);
    }
    if MatchesButton(text, ByCityButton) {
      ByCityKeyword(text);
    }
  }

  lemma ByNameKeyword(text: string)
    requires MatchesButton(text, ByNameButton)
    ensures Contains(Lower(text), "shop name")
  {
    ButtonKeyword(text, ByNameButton, "\U{1F3EA} Search by ", "shop name", "");
    KeywordSpellings();
  }

  lemma ByCityKeyword(text: string)
    requires MatchesButton(text, ByCityButton)
    ensures !Contains(Lower(text), "shop name") && Contains(Lower(text), "city")
  {
    ButtonKeyword(text, ByCityButton, "\U{1F3D9}\U{FE0F} Browse by ", "city", "");
    KeywordSpellings();
    ButtonLacksKeyword(text, ByCityButton, "shop name", 5);
  }
}

/**
 * One user's conversation with the bot: the values the two dialogues keep in
 *  `user_data`, their handlers (bot/bosko_bot.py:261-872) and the way an
 * incoming message is routed to them (bot/bosko_bot.py:913-988).
 */
module Dialogue {

  import opened Wrappers
  import opened Seqs
  import opened Text
  import opened Catalog
  import opened Clock
  import opened Favorites
  import opened Jobs
  import opened Routing

  /** The scratch values a dialogue leaves in `user_data` between messages. */
  datatype Scratch = Scratch(
    flavorSearchResults: seq<Product>,
    selectedFlavors: seq<string>,
    cityShops: map<string, Shop>,
    searchShops: map<string, Shop>,
    selectedShops: seq<Shop>,
    updateTime: Option<string>,
    timezone: Option<string>,
    selectedDays: seq<int>)

  /** Selections never repeat an entry, and a chosen time has been checked. */
  ghost predicate ScratchValid(s: Scratch) {
    && NoDups(s.selectedFlavors) && NoDups(s.selectedShops)
    && WeekdaySet(s.selectedDays)
    && (s.updateTime.Some? ==> MatchesTimePattern(s.updateTime.value))
  }

  /** Each dialogue is in one of its own states, and the day selection follows a chosen time. */
  ghost predicate StatesValid(favoritesState: State, updatesState: State, s: Scratch) {
    && (favoritesState == End || favoritesState.OfFavorites())
    && (updatesState == End || updatesState.OfDailyUpdates())
    && (updatesState == SelectingDays ==> s.updateTime.Some?)
  }

  /**
   * A job is recorded together with its configuration, which belongs to the
   * user, holds the user's own favorite lists and valid weekdays.
   */
  ghost predicate RecordValid(job: Option<nat>, config: Option<Config>, flavors: FavoriteList<string>,
                              shops: FavoriteList<Shop>, userId: int) {
    && (job.Some? <==> config.Some?)
    && (config.Some? ==>
          && config.value.flavors == flavors && config.value.shops == shops
          && config.value.userId == userId && WeekdaySet(config.value.days))
  }

  const NoScratch := Scratch([], [], map[], map[], [], None, None, [])

  /** A list of weekday numbers (0 is Sunday) without repetitions. */
  ghost predicate WeekdaySet(days: seq<int>) {
    NoDups(days) && forall d :: d in days ==> 0 <= d < 7
  }

  /** Both day shortcuts are weekday sets. */
  lemma ShortcutsAreWeekdaySets()
    ensures WeekdaySet(AllDays) && WeekdaySet(WeekdaysOnly)
  {
  }

  /**
   * The live jobs once `h`'s job, if there is one, has been removed: every
   * other job stays, with the same registration.
   */
  function Without(live: map<nat, Job>, h: Option<nat>): (m: map<nat, Job>)
    ensures forall k :: k in m <==> k in live && h != Some(k)
    ensures forall k :: k in m ==> m[k] == live[k]
  {
    if h.Some? then live - {h.value} else live
  }

  /** Which dialogue an incoming message went to. */
  datatype Route = ToFavorites | ToDailyUpdates | ToStopDailyUpdates | Unrouted

  class Session {
    const userId: int
    const flavors: FavoriteList<string>
    const shops: FavoriteList<Shop>
    var scratch: Scratch
    var favoritesState: State
    var updatesState: State
    /** `daily_updates_job`, as the handle of the job in the job queue. */
    var job: Option<nat>
    /** `daily_updates_config`. */
    var config: Option<Config>

    /**
     * The favorite lists and selections never repeat an entry, each dialogue is
     * in one of its own states, a chosen time has been checked, and the
     * recorded job configuration shares the user's own favorite lists.
     */
    ghost predicate Valid()
      reads this, flavors, shops
    {
      && NoDups(flavors.items) && NoDups(shops.items)
      && ScratchValid(scratch)
      && StatesValid(favoritesState, updatesState, scratch)
      && RecordValid(job, config, flavors, shops, userId)
    }

    /** The recorded job is live and carries the recorded configuration, and the user has no other live job. */
    ghost predicate Tracks(queue: JobQueue)
      reads this, queue
    {
      && (job.Some? ==> job.value in queue.live && config.Some? && queue.live[job.value].data == config.value)
      && (forall h :: h in queue.live && queue.live[h].data.userId == userId ==> job == Some(h))
    }

    /** A user the bot has not seen yet. */
    constructor (userId: int)
      ensures Valid()
      ensures this.userId == userId && flavors.items == [] && shops.items == []
      ensures scratch == NoScratch && favoritesState == End && updatesState == End
      ensures job.None? && config.None?
    {
      this.userId := userId;
      flavors := new FavoriteList();
      shops := new FavoriteList();
      scratch := NoScratch;
      favoritesState := End;
      updatesState := End;
      job := None;
      config := None;
    }

    /** `search_flavor_for_favorite`: search for the stripped text; with results, start a fresh selection. */
    method SearchFlavorForFavorite(message: string, search: string -> seq<Product>) returns (next: State)
      requires Valid()
      modifies this`scratch
      ensures Valid()
      ensures var results := search(Strip(message));
              && (results == [] ==> next == SearchingFlavor && scratch == old(scratch))
              && (results != [] ==>
                    && next == SelectingFlavors
                    && scratch == old(scratch).(flavorSearchResults := results, selectedFlavors := []))
    {
      var query := Strip(message);
      var results := search(query);
      if results == [] {
        return SearchingFlavor;
      }
      scratch := scratch.(flavorSearchResults := results);
      scratch := scratch.(selectedFlavors := []);
      return SelectingFlavors;
    }

    /**
     * `select_flavors`: "Done" adds the selection to the favorite flavors (an
     * empty selection is refused), "Cancel" abandons it, and any other text
     * joins the selection.
     */
    method SelectFlavors(message: string) returns (next: State)
      requires Valid()
      modifies this`scratch, flavors
      ensures Valid()
      ensures var text, selected := Strip(message), old(scratch.selectedFlavors);
              && (text == DoneButton && selected == [] ==>
                    next == SelectingFlavors && flavors.items == old(flavors.items) && scratch == old(scratch))
              && (text == DoneButton && selected != [] ==>
                    next == End && flavors.items == MergeNew(old(flavors.items), selected) && scratch == old(scratch))
              && (text == CancelButton ==>
                    next == End && flavors.items == old(flavors.items) && scratch == old(scratch))
              && (text != DoneButton && text != CancelButton ==>
                    && next == SelectingFlavors && flavors.items == old(flavors.items)
                    && scratch == old(scratch).(selectedFlavors := Accumulate(selected, text)))
    {
      var text := Strip(message);
      if text == DoneButton {
        if scratch.selectedFlavors == [] {
          return SelectingFlavors;
        }
        var _ := flavors.AddAll(scratch.selectedFlavors);
        return End;
      } else if text == CancelButton {
        return End;
      }
      scratch := scratch.(selectedFlavors := Accumulate(scratch.selectedFlavors, text));
      return SelectingFlavors;
    }

    /** `choose_city`: offer the shops of the chosen city and start a fresh selection. */
    method ChooseCity(message: string, catalog: seq<Shop>) returns (next: State)
      requires Valid()
      modifies this`scratch
      ensures Valid()
      ensures var city := Strip(message);
              var inCity := ShopsInCity(catalog, city);
              && (city == CancelButton ==> next == End && scratch == old(scratch))
              && (city != CancelButton && inCity == [] ==> next == ChoosingCity && scratch == old(scratch))
              && (city != CancelButton && inCity != [] ==>
                    next == SelectingShopFromCity
                    && scratch == old(scratch).(cityShops := ByName(inCity), selectedShops := []))
    {
      var city := Strip(message);
      if city == CancelButton {
        return End;
      }
      var inCity := GetShopsInCity(catalog, city);
      if inCity == [] {
        return ChoosingCity;
      }
      scratch := scratch.(cityShops := ByName(inCity));
      scratch := scratch.(selectedShops := []);
      return SelectingShopFromCity;
    }

    /**
     * `select_shop_from_city`: "Cancel" ends; "Done" adds the selection to the
     * favorite shops (an empty selection is refused) and reports how many were
     * new; a shop name offered by the last city or name search joins the
     * selection (the name search's offer wins on a clash); other text is refused.
     */
    method SelectShopFromCity(message: string) returns (next: State, added: nat)
      requires Valid()
      modifies this`scratch, shops
      ensures Valid()
      ensures var name, selected := Strip(message), old(scratch.selectedShops);
              var offered := old(scratch.cityShops) + old(scratch.searchShops);
              && (name == CancelButton ==>
                    next == End && shops.items == old(shops.items) && scratch == old(scratch) && added == 0)
              && (name == DoneButton && selected == [] ==>
                    next == SelectingShopFromCity && shops.items == old(shops.items) && scratch == old(scratch) && added == 0)
              && (name == DoneButton && selected != [] ==>
                    && next == End && shops.items == MergeNew(old(shops.items), selected) && scratch == old(scratch)
                    && added == |shops.items| - |old(shops.items)|)
              && (name != CancelButton && name != DoneButton && name !in offered ==>
                    next == SelectingShopFromCity && shops.items == old(shops.items) && scratch == old(scratch) && added == 0)
              && (name != CancelButton && name != DoneButton && name in offered ==>
                    && next == SelectingShopFromCity && shops.items == old(shops.items) && added == 0
                    && scratch == old(scratch).(selectedShops := Accumulate(selected, offered[name])))
    {
      var name := Strip(message);
      added := 0;
      if name == CancelButton {
        return End, 0;
      }
      if name == DoneButton {
        if scratch.selectedShops == [] {
          return SelectingShopFromCity, 0;
        }
        added := shops.AddAll(scratch.selectedShops);
        return End, added;
      }
      var offered := scratch.cityShops + scratch.searchShops;
      if name !in offered {
        return SelectingShopFromCity, 0;
      }
      scratch := scratch.(selectedShops := Accumulate(scratch.selectedShops, offered[name]));
      return SelectingShopFromCity, 0;
    }

    /**
     * `select_shop_by_name`: "cancel" in any letter case ends; no match asks
     * again; a single match becomes a favorite at once; several matches are
     * offered for selection.
     */
    method SelectShopByName(message: string, catalog: seq<Shop>) returns (next: State)
      requires Valid()
      modifies this`scratch, shops
      ensures Valid()
      ensures var query := Strip(message);
              var found := MatchingShops(catalog, query);
              && (Lower(query) == "cancel" ==>
                    next == End && shops.items == old(shops.items) && scratch == old(scratch))
              && (Lower(query) != "cancel" && found == [] ==>
                    next == SelectingShop && shops.items == old(shops.items) && scratch == old(scratch))
              && (Lower(query) != "cancel" && |found| == 1 ==>
                    next == End && shops.items == Accumulate(old(shops.items), found[0]) && scratch == old(scratch))
              && (Lower(query) != "cancel" && |found| > 1 ==>
                    && next == SelectingShopFromCity && shops.items == old(shops.items)
                    && scratch == old(scratch).(searchShops := ByName(found), selectedShops := []))
    {
      var query := Strip(message);
      if Lower(query) == "cancel" {
        return End;
      }
      var found := MatchingShops(catalog, query);
      if found == [] {
        return SelectingShop;
      }
      if |found| == 1 {
        var _ := shops.Add(found[0]);
        return End;
      }
      scratch := scratch.(searchShops := ByName(found));
      scratch := scratch.(selectedShops := []);
      return SelectingShopFromCity;
    }

    /** `setup_daily_updates`: the dialogue opens only for a user with favorite flavors and favorite shops. */
    function BeginDailyUpdates(): (next: State)
      reads this, flavors, shops
      ensures next == SetupDailyUpdates || next == End
      ensures next == SetupDailyUpdates <==> flavors.items != [] && shops.items != []
    {
      if flavors.items == [] || shops.items == [] then End else SetupDailyUpdates
    }

    /** `select_update_time`: a well-formed time is kept with the default time zone, and a fresh day selection starts. */
    method SelectUpdateTime(message: string) returns (next: State)
      requires Valid()
      modifies this`scratch
      ensures Valid()
      ensures var t := Strip(message);
              && (!MatchesTimePattern(t) ==> next == SelectingTime && scratch == old(scratch))
              && (MatchesTimePattern(t) ==>
                    && next == SelectingDays
                    && scratch == old(scratch).(updateTime := Some(t), timezone := Some(DefaultTimezone), selectedDays := []))
    {
      var t := Strip(message);
      if !MatchesTimePattern(t) {
        return SelectingTime;
      }
      scratch := scratch.(updateTime := Some(t));
      scratch := scratch.(timezone := Some(DefaultTimezone));
      scratch := scratch.(selectedDays := []);
      return SelectingDays;
    }

    /**
     * The effect of `finalize_daily_updates` for weekdays `days`: the previous
     * job is gone, a new job runs at the chosen time on those days, and its
     * configuration, which holds the user's own favorite lists, is recorded.
     */
    twostate predicate Finalized(queue: JobQueue, chatId: int, days: seq<int>)
      reads this, queue
    {
      && old(scratch.updateTime).Some? && MatchesTimePattern(old(scratch.updateTime).value)
      && var cfg := Config(old(scratch.updateTime).value, days, old(scratch.timezone).GetOr(DefaultTimezone),
                           flavors, shops, userId, chatId);
         var hm := ParseClock(cfg.updateTime);
         && config == Some(cfg)
         && job.Some? && job.value !in old(queue.live)
         && queue.live == Without(old(queue.live), old(job))[job.value := Job(hm.0, hm.1, days, cfg, chatId)]
    }

    /** `finalize_daily_updates`: replace the user's job by one for the chosen time and days. */
    method FinalizeDailyUpdates(chatId: int, queue: JobQueue) returns (next: State)
      requires Valid() && queue.Valid() && Tracks(queue)
      requires scratch.updateTime.Some?
      modifies this`job, this`config, queue
      ensures Valid() && queue.Valid() && Tracks(queue)
      ensures next == End
      ensures Finalized(queue, chatId, scratch.selectedDays)
    {
      var updateTime := scratch.updateTime.value;
      var days := scratch.selectedDays;
      var timezone := scratch.timezone.GetOr(DefaultTimezone);
      var hm := ParseClock(updateTime);
      if job.Some? {
        queue.ScheduleRemoval(job.value);
      }
      var data := Config(updateTime, days, timezone, flavors, shops, userId, chatId);
      var h := queue.RunDaily(Job(hm.0, hm.1, days, data, chatId));
      job := Some(h);
      config := Some(data);
      return End;
    }

    /**
     * `select_update_days`: "Cancel" ends; "Done" schedules the selected days
     * (an empty selection is refused); the two shortcuts schedule every day or
     * Monday to Friday; a day name joins the selection; other text is ignored.
     */
    method SelectUpdateDays(message: string, chatId: int, queue: JobQueue) returns (next: State)
      requires Valid() && queue.Valid() && Tracks(queue)
      requires scratch.updateTime.Some?
      modifies this`scratch, this`job, this`config, queue
      ensures Valid() && queue.Valid() && Tracks(queue)
      ensures var text, days := Strip(message), old(scratch.selectedDays);
              var schedules := (text == DoneButton && days != []) || text == AllDaysButton || text == WeekdaysButton;
              && (schedules ==> next == End && Finalized(queue, chatId, scratch.selectedDays))
              && (!schedules ==> job == old(job) && config == old(config) && queue.live == old(queue.live))
              && (text == CancelButton ==> next == End && scratch == old(scratch))
              && (text == DoneButton ==> scratch == old(scratch) && (days == [] ==> next == SelectingDays))
              && (text == AllDaysButton ==> scratch == old(scratch).(selectedDays := AllDays))
              && (text == WeekdaysButton ==> scratch == old(scratch).(selectedDays := WeekdaysOnly))
              && (text !in {CancelButton, DoneButton, AllDaysButton, WeekdaysButton} ==>
                    && next == SelectingDays
                    && scratch == (match DayIndex(text)
                                   case Some(d) => old(scratch).(selectedDays := Accumulate(days, d))
                                   case None => old(scratch)))
    {
      var text := Strip(message);
      if text == CancelButton {
        return End;
      }
      if text == DoneButton && scratch.selectedDays == [] {
        return SelectingDays;
      }
      if text == DoneButton || text == AllDaysButton || text == WeekdaysButton {
        ShortcutsAreWeekdaySets();
        if text == AllDaysButton {
          scratch := scratch.(selectedDays := AllDays);
        } else if text == WeekdaysButton {
          scratch := scratch.(selectedDays := WeekdaysOnly);
        }
        next := FinalizeDailyUpdates(chatId, queue);
        return;
      }
      var d := DayIndex(text);
      if d.Some? {
        scratch := scratch.(selectedDays := Accumulate(scratch.selectedDays, d.value));
      }
      return SelectingDays;
    }

    /** `stop_daily_updates`: remove the user's job, if any, and forget it. */
    method StopDailyUpdates(queue: JobQueue) returns (stopped: bool)
      requires Valid() && queue.Valid() && Tracks(queue)
      modifies this`job, this`config, queue
      ensures Valid() && queue.Valid() && Tracks(queue)
      ensures stopped <==> old(job).Some?
      ensures job.None? && config.None?
      ensures queue.live == Without(old(queue.live), old(job))
      ensures forall h :: h in queue.live ==> queue.live[h].data.userId != userId
    {
      stopped := job.Some?;
      if stopped {
        queue.ScheduleRemoval(job.value);
        job := None;
        config := None;
      }
    }

    /**
     * The add-favorite `ConversationHandler`. `/add_favorite` opens the
     * dialogue; in a button-only state only its buttons reach the handler, in
     * the other states any text does; otherwise `/cancel`, or the Cancel button,
     * ends the dialogue. Every other message is left to the next handler.
     */
    method OnFavoritesMessage(input: Input, catalog: CatalogView) returns (handled: bool)
      requires Valid()
      modifies this`scratch, this`favoritesState, flavors, shops
      ensures Valid()
      ensures IsPrefix(old(flavors.items), flavors.items) && IsPrefix(old(shops.items), shops.items)
      ensures var kept := scratch == old(scratch) && flavors.items == old(flavors.items) && shops.items == old(shops.items);
              && (!handled ==> favoritesState == old(favoritesState) && kept)
              && (old(favoritesState) == End ==>
                    && (handled <==> input == Command("add_favorite"))
                    && favoritesState == (if handled then ChoosingFavoriteType else End) && kept)
              && (old(favoritesState) != End && input.Command? ==>
                    && (handled <==> input.name == "cancel")
                    && (handled ==> favoritesState == End && kept))
              && (ButtonsOnly(old(favoritesState)) && input.Text? ==>
                    && (handled <==> ButtonOf(old(favoritesState), input.text) || MatchesButton(input.text, CancelButton))
                    && (!ButtonOf(old(favoritesState), input.text) && handled ==> favoritesState == End && kept))
              && (old(favoritesState) != End && !ButtonsOnly(old(favoritesState)) && input.Text? ==> handled)
              && (old(favoritesState) == ChoosingFavoriteType && input.Text? ==>
                    && (MatchesButton(input.text, FlavorsButton) ==> favoritesState == SearchingFlavor && kept)
                    && (MatchesButton(input.text, ShopsButton) ==> favoritesState == SearchingShop && kept))
    {
      var state := favoritesState;
      if state == End {
        if input == Command("add_favorite") {
          favoritesState := ChoosingFavoriteType;
          return true;
        }
        return false;
      }
      if input.Command? {
        if input.name == "cancel" {
          favoritesState := End;
          return true;
        }
        return false;
      }
      var text := input.text;
      if ButtonsOnly(state) && !ButtonOf(state, text) {
        if MatchesButton(text, CancelButton) {
          favoritesState := End;
          return true;
        }
        return false;
      }
      if state == ChoosingFavoriteType {
        FavoriteTypeButtons(text);
      }
      favoritesState := RunFavoritesHandler(text, catalog);
      return true;
    }

    /** The handler registered for the current add-favorite state, applied to a message it accepts. */
    method RunFavoritesHandler(text: string, catalog: CatalogView) returns (next: State)
      requires Valid() && favoritesState != End
      requires ButtonsOnly(favoritesState) ==> ButtonOf(favoritesState, text)
      modifies this`scratch, flavors, shops
      ensures Valid()
      ensures next == End || next.OfFavorites()
      ensures IsPrefix(old(flavors.items), flavors.items) && IsPrefix(old(shops.items), shops.items)
      ensures favoritesState == ChoosingFavoriteType ==>
                && next == ChooseFavoriteType(text)
                && scratch == old(scratch) && flavors.items == old(flavors.items) && shops.items == old(shops.items)
    {
      var state := favoritesState;
      if state == ChoosingFavoriteType {
        next := ChooseFavoriteType(text);
      } else if state == SearchingFlavor || state == SelectingFlavors {
        next := RunFlavorHandler(text, catalog);
      } else {
        next := RunShopHandler(text, catalog);
      }
    }

    /** The handlers of the flavor search and selection. */
    method RunFlavorHandler(text: string, catalog: CatalogView) returns (next: State)
      requires Valid() && (favoritesState == SearchingFlavor || favoritesState == SelectingFlavors)
      modifies this`scratch, flavors
      ensures Valid()
      ensures next == End || next.OfFavorites()
      ensures IsPrefix(old(flavors.items), flavors.items)
    {
      if favoritesState == SearchingFlavor {
        next := SearchFlavorForFavorite(text, catalog.search);
      } else {
        next := SelectFlavors(text);
      }
    }

    /** The handlers of the shop search and selection. */
    method RunShopHandler(text: string, catalog: CatalogView) returns (next: State)
      requires Valid()
      requires favoritesState in {SearchingShop, SelectingShop, ChoosingCity, SelectingShopFromCity}
      modifies this`scratch, shops
      ensures Valid()
      ensures next == End || next.OfFavorites()
      ensures IsPrefix(old(shops.items), shops.items)
    {
      var state := favoritesState;
      if state == SearchingShop {
        next := SearchShopMethod(text, catalog.shops);
      } else if state == SelectingShop {
        next := SelectShopByName(text, catalog.shops);
        assert IsPrefix(old(shops.items), shops.items);
      } else if state == ChoosingCity {
        next := ChooseCity(text, catalog.shops);
      } else {
        var added;
        next, added := SelectShopFromCity(text);
      }
    }

    /**
     * The daily-updates `ConversationHandler`, routed the same way:
     * `/daily_updates` opens it when the user has favorites of both kinds.
     */
    method OnDailyUpdatesMessage(input: Input, chatId: int, queue: JobQueue) returns (handled: bool)
      requires Valid() && queue.Valid() && Tracks(queue)
      modifies this`scratch, this`updatesState, this`job, this`config, queue
      ensures Valid() && queue.Valid() && Tracks(queue)
      ensures var kept := scratch == old(scratch) && job == old(job) && config == old(config) && queue.live == old(queue.live);
              && (!handled ==> updatesState == old(updatesState) && kept)
              && (old(updatesState) == End ==>
                    && (handled <==> input == Command("daily_updates"))
                    && updatesState == (if handled then BeginDailyUpdates() else End) && kept)
              && (old(updatesState) != End && input.Command? ==>
                    && (handled <==> input.name == "cancel")
                    && (handled ==> updatesState == End && kept))
              && (ButtonsOnly(old(updatesState)) && input.Text? ==>
                    && (handled <==> ButtonOf(old(updatesState), input.text) || MatchesButton(input.text, CancelButton))
                    && (!ButtonOf(old(updatesState), input.text) && handled ==> updatesState == End && kept))
              && (old(updatesState) == SetupDailyUpdates && input.Text? ==>
                    && (MatchesButton(input.text, SetUpdatesButton) ==> updatesState == SelectingTime && kept)
                    && (MatchesButton(input.text, ViewSettingsButton) ==> updatesState == End && kept))
              && (old(updatesState) != End && !ButtonsOnly(old(updatesState)) && input.Text? ==> handled)
              && (job != old(job) ==> old(updatesState) == SelectingDays && updatesState == End)
    {
      var state := updatesState;
      if state == End {
        if input == Command("daily_updates") {
          updatesState := BeginDailyUpdates();
          return true;
        }
        return false;
      }
      if input.Command? {
        if input.name == "cancel" {
          updatesState := End;
          return true;
        }
        return false;
      }
      var text := input.text;
      if ButtonsOnly(state) && !ButtonOf(state, text) {
        if MatchesButton(text, CancelButton) {
          updatesState := End;
          return true;
        }
        return false;
      }
      if state == SetupDailyUpdates {
        DailyUpdatesButtons(text);
      }
      updatesState := RunDailyUpdatesHandler(text, chatId, queue);
      return true;
    }

    /** The handler registered for the current daily-updates state, applied to a message it accepts. */
    method RunDailyUpdatesHandler(text: string, chatId: int, queue: JobQueue) returns (next: State)
      requires Valid() && queue.Valid() && Tracks(queue) && updatesState != End
      requires ButtonsOnly(updatesState) ==> ButtonOf(updatesState, text)
      modifies this`scratch, this`job, this`config, queue
      ensures Valid() && queue.Valid() && Tracks(queue)
      ensures next == End || next.OfDailyUpdates()
      ensures next == SelectingDays ==> scratch.updateTime.Some?
      ensures updatesState == SetupDailyUpdates ==>
                && next == HandleDailyUpdatesChoice(text)
                && scratch == old(scratch) && job == old(job) && config == old(config) && queue.live == old(queue.live)
      ensures job != old(job) ==> updatesState == SelectingDays && next == End
    {
      var state := updatesState;
      if state == SetupDailyUpdates {
        next := HandleDailyUpdatesChoice(text);
      } else if state == SelectingTime {
        next := SelectUpdateTime(text);
      } else {
        next := SelectUpdateDays(text, chatId, queue);
      }
    }

    /**
     * One incoming message, offered to the handlers in the order the bot
     * registers them: the add-favorite dialogue, then the daily-updates
     * dialogue, then the `/stop_daily_updates` command. The first that takes
     * it handles it; the bot's other commands are not part of this model.
     */
    method Receive(input: Input, catalog: CatalogView, chatId: int, queue: JobQueue) returns (route: Route)
      requires Valid() && queue.Valid() && Tracks(queue)
      modifies this`scratch, this`favoritesState, this`updatesState, this`job, this`config, flavors, shops, queue
      ensures Valid() && queue.Valid() && Tracks(queue)
      ensures IsPrefix(old(flavors.items), flavors.items) && IsPrefix(old(shops.items), shops.items)
      ensures route != ToFavorites ==>
                favoritesState == old(favoritesState) && flavors.items == old(flavors.items) && shops.items == old(shops.items)
      ensures route != ToDailyUpdates ==> updatesState == old(updatesState)
      ensures route == ToFavorites || route == Unrouted ==>
                job == old(job) && config == old(config) && queue.live == old(queue.live)
      ensures route == Unrouted ==> scratch == old(scratch)
      ensures route == ToStopDailyUpdates <==> input == Command("stop_daily_updates")
      ensures route == ToStopDailyUpdates ==>
                job.None? && config.None? && queue.live == Without(old(queue.live), old(job)) && scratch == old(scratch)
    {
      var taken := OnFavoritesMessage(input, catalog);
      if taken {
        return ToFavorites;
      }
      taken := OnDailyUpdatesMessage(input, chatId, queue);
      if taken {
        return ToDailyUpdates;
      }
      if input == Command("stop_daily_updates") {
        var _ := StopDailyUpdates(queue);
        return ToStopDailyUpdates;
      }
      return Unrouted;
    }
  }
}

/**
 * The bookkeeping around the daily-updates job (bot/bosko_bot.py:798-872): the
 * job's data, the registry of live jobs that `run_daily` adds to and
 * `schedule_removal` takes from, and what a job does when it fires. When and
 * how often a job fires is the job queue's business and is not modelled.
 */
module Jobs {

  import opened Wrappers
  import opened Catalog
  import opened Matcher
  import opened Favorites

  /**
   * `job_data`. The favorite lists are the user's own list objects, not
   * copies; the weekday tuple is a copy.
   */
  datatype Config = Config(
    updateTime: string,
    days: seq<int>,
    timezone: string,
    flavors: FavoriteList<string>,
    shops: FavoriteList<Shop>,
    userId: int,
    chatId: int)

  /** A job registered with `run_daily`: time of day, weekdays, data and target chat. */
  datatype Job = Job(hour: nat, minute: nat, days: seq<int>, data: Config, chatId: int)

  /** The live jobs, by handle. */
  class JobQueue {
    var live: map<nat, Job>
    var nextHandle: nat

    ghost predicate Valid()
      reads this
    {
      forall h :: h in live ==> h < nextHandle
    }

    constructor ()
      ensures Valid() && live == map[]
    {
      live := map[];
      nextHandle := 0;
    }

    /** `job_queue.run_daily(...)`: registers `job` under a new handle. */
    method RunDaily(job: Job) returns (h: nat)
      requires Valid()
      modifies this
      ensures Valid()
      ensures h !in old(live) && live == old(live)[h := job]
      ensures old(nextHandle) <= h < nextHandle
    {
      h := nextHandle;
      live := live[h := job];
      nextHandle := nextHandle + 1;
    }

    /** `job.schedule_removal()`: the job will not fire again. */
    method ScheduleRemoval(h: nat)
      requires Valid()
      modifies this
      ensures Valid()
      ensures live == old(live) - {h}
      ensures nextHandle == old(nextHandle)
    {
      live := live - {h};
    }
  }

  /**
   * One firing of a job: `check_favorites_availability` reads the favorite
   * lists held in the job's data as they are at firing time.
   */
  method Fire(job: Job, productsAt: int -> Option<seq<Product>>) returns (digest: Option<seq<Sighting>>)
    ensures var flavors, shops := job.data.flavors.items, job.data.shops.items;
            && (digest.Some? <==> flavors != [] && shops != [] && Sightings(shops, flavors, productsAt) != [])
            && (digest.Some? ==> digest.value == Sightings(shops, flavors, productsAt))
  {
    digest := CheckFavoritesAvailability(job.data.flavors.items, job.data.shops.items, productsAt);
  }
}

/** The default `history` command (src/commands/history/default.js): the
    `status` and `origin` filters go to the service, while the time window
    is applied locally to the entries the service yields. Timestamps are
    integers; `parseDateTime` and dayjs are not part of this model. */
module History {

  import opened Wrappers
  import opened JsValues
  import opened Seqs

  /** An entry the service yields: its `created_at` and the record printed. */
  datatype Entry = Entry(createdAt: int, record: JsValue)

  /** The arguments; `from` and `to` are already parsed instants. */
  datatype HistoryArgs = HistoryArgs(
    status: Option<string>,
    origin: Option<string>,
    from: Option<int>,
    to: Option<int>)

  /** What the service is asked for. */
  datatype Query = Query(status: Option<string>, origin: Option<string>)

  /** `(!from || createdAt.isAfter(from)) && (!to || createdAt.isBefore(to))`. */
  predicate InWindow(args: HistoryArgs, e: Entry) {
    && (args.from.None? || e.createdAt > args.from.value)
    && (args.to.None? || e.createdAt < args.to.value)
  }

  /** The query the handler sends: only `status` and `origin`. */
  function QueryOf(args: HistoryArgs): Query {
    Query(args.status, args.origin)
  }

  /** The printed entries, given the service as a function of the query. */
  function Printed(args: HistoryArgs, service: Query -> seq<Entry>): (r: seq<Entry>)
    ensures |r| <= |service(Query(args.status, args.origin))|
    ensures forall e :: e in r <==>
      && e in service(Query(args.status, args.origin))
      && (args.from.None? || args.from.value < e.createdAt)
      && (args.to.None? || e.createdAt < args.to.value)
  {
    Filter(e => InWindow(args, e), service(QueryOf(args)))
  }

  /** An entry stamped exactly at either bound is not printed. */
  lemma BoundsAreStrict(args: HistoryArgs, service: Query -> seq<Entry>, e: Entry)
    requires (args.from.Some? && e.createdAt == args.from.value) || (args.to.Some? && e.createdAt == args.to.value)
    ensures e !in Printed(args, service)
  {
  }

  /** Without bounds every yielded entry is printed, in order. */
  lemma NoBoundsPrintsAll(args: HistoryArgs, service: Query -> seq<Entry>)
    requires args.from.None? && args.to.None?
    ensures Printed(args, service) == service(Query(args.status, args.origin))
  {
    FilterAll(e => InWindow(args, e), service(QueryOf(args)));
  }

  /** The output of a stream is the output of its first part followed by
      that of the rest: printed entries keep the service's order. */
  lemma PrintedInYieldOrder(args: HistoryArgs, first: seq<Entry>, rest: seq<Entry>)
    ensures Printed(args, _ => first + rest) == Printed(args, _ => first) + Printed(args, _ => rest)
  {
    FilterAppend(e => InWindow(args, e), first, rest);
  }

  /** The handler never looks at the status or origin of an entry: an entry
      the service yields inside the window is printed whatever its record. */
  lemma StatusIsNotFilteredLocally(args: HistoryArgs, service: Query -> seq<Entry>, e: Entry)
    requires e in service(Query(args.status, args.origin))
    requires InWindow(args, e)
    requires args.status.Some? && Prop(e.record, "status") != Str(args.status.value)
    ensures e in Printed(args, service)
  {
  }
}

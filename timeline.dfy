/**
 * The printing end of `main` in src/main.rs: for each group a header line
 * (the formatted day and the repository name), then each event of the group
 * handed to the classifier. The first fatal event stops the run; what was
 * printed before it stays printed.
 *
 * The rendering of a day as "%Y-%m-%d (%a)" is a parameter `showDay`.
 */
module Timeline {
  import opened Payloads
  import opened Classifier
  import opened Organizer
  import opened Seqs

  /** What a run prints, and the message it stopped with if it stopped. */
  datatype Output = Output(lines: seq<string>, fatal: Option<string>)

  /** Run a, then b unless a stopped. */
  function Then(a: Output, b: Output): Output {
    if a.fatal.Some? then a else Output(a.lines + b.lines, b.fatal)
  }

  function EventOutput(e: Event): Output {
    match ProcessEvent(e)
    case Lines(ls) => Output(ls, None)
    case Fatal(m) => Output([], Some(m))
  }

  /** `group.for_each(process_event)`. */
  function RenderEvents(es: seq<Event>): Output {
    if es == [] then Output([], None) else Then(EventOutput(es[0]), RenderEvents(es[1..]))
  }

  function Header(k: Key, showDay: int -> string): string {
    showDay(k.day) + " - " + k.repo
  }

  /** The `for_each` over the groups: header, then the group's events. */
  function RenderGroups(gs: seq<Group>, showDay: int -> string): Output {
    if gs == [] then Output([], None)
    else
      Then(Then(Output([Header(gs[0].key, showDay)], None), RenderEvents(gs[0].events)),
           RenderGroups(gs[1..], showDay))
  }

  /** The whole pipeline from the fetched events to what is printed. */
  function RunTimeline(events: seq<Event>, username: string,
                       localDay: int -> int, showDay: int -> string): Output
  {
    RenderGroups(Organize(events, username, localDay), showDay)
  }

  // ------------------------------------------------------ reference view

  /** The lines an event prints when it does not stop the run. */
  function EventLines(e: Event): seq<string> {
    if ProcessEvent(e).Lines? then ProcessEvent(e).lines else []
  }

  function AllEventLines(es: seq<Event>): seq<string> {
    if es == [] then [] else EventLines(es[0]) + AllEventLines(es[1..])
  }

  /** The message of the first event whose handling stops the run. */
  function FirstFatal(es: seq<Event>): Option<string> {
    if es == [] then None
    else if ProcessEvent(es[0]).Fatal? then Some(ProcessEvent(es[0]).message)
    else FirstFatal(es[1..])
  }

  /** The events handled before the first fatal one. */
  function BeforeFatal(es: seq<Event>): seq<Event> {
    if es == [] || ProcessEvent(es[0]).Fatal? then [] else [es[0]] + BeforeFatal(es[1..])
  }

  /** The lines that are not indented by a tab: the group headers. */
  function Headers(lines: seq<string>): seq<string> {
    if lines == [] then []
    else (if TabLed(lines[0]) then [] else [lines[0]]) + Headers(lines[1..])
  }

  /** The tab-indented lines: what the events printed. */
  function Details(lines: seq<string>): seq<string> {
    if lines == [] then []
    else (if TabLed(lines[0]) then [lines[0]] else []) + Details(lines[1..])
  }

  function HeaderLines(gs: seq<Group>, showDay: int -> string): seq<string> {
    if gs == [] then [] else [Header(gs[0].key, showDay)] + HeaderLines(gs[1..], showDay)
  }

  // ------------------------------------------------------------- lemmas

  lemma LinesCons(x: string, t: seq<string>)
    ensures Headers([x] + t) == (if TabLed(x) then [] else [x]) + Headers(t)
    ensures Details([x] + t) == (if TabLed(x) then [x] else []) + Details(t)
  {
    assert ([x] + t)[0] == x;
    assert ([x] + t)[1..] == t;
  }

  lemma {:induction false} HeadersAppend(a: seq<string>, b: seq<string>)
    ensures Headers(a + b) == Headers(a) + Headers(b)
  {
    if a == [] {
      assert a + b == b;
    } else {
      var x, t := a[0], a[1..];
      var h := if TabLed(x) then [] else [x];
      HeadTail(a);
      AppendAssoc([x], t, b);
      LinesCons(x, t + b);
      LinesCons(x, t);
      HeadersAppend(t, b);
      AppendAssoc(h, Headers(t), Headers(b));
    }
  }

  lemma {:induction false} DetailsAppend(a: seq<string>, b: seq<string>)
    ensures Details(a + b) == Details(a) + Details(b)
  {
    if a == [] {
      assert a + b == b;
    } else {
      var x, t := a[0], a[1..];
      var d := if TabLed(x) then [x] else [];
      HeadTail(a);
      AppendAssoc([x], t, b);
      LinesCons(x, t + b);
      LinesCons(x, t);
      DetailsAppend(t, b);
      AppendAssoc(d, Details(t), Details(b));
    }
  }

  lemma {:induction false} AllTabLedDetails(lines: seq<string>)
    requires AllTabLed(lines)
    ensures Headers(lines) == [] && Details(lines) == lines
  {
    if lines != [] {
      AllTabLedDetails(lines[1..]);
      assert lines == [lines[0]] + lines[1..];
    }
  }

  lemma EventLinesCons(x: Event, t: seq<Event>)
    ensures AllEventLines([x] + t) == EventLines(x) + AllEventLines(t)
  {
    assert ([x] + t)[0] == x;
    assert ([x] + t)[1..] == t;
  }

  lemma {:induction false} AllEventLinesAppend(a: seq<Event>, b: seq<Event>)
    ensures AllEventLines(a + b) == AllEventLines(a) + AllEventLines(b)
  {
    if a == [] {
      assert a + b == b;
    } else {
      var x, t := a[0], a[1..];
      HeadTail(a);
      AppendAssoc([x], t, b);
      EventLinesCons(x, t + b);
      EventLinesCons(x, t);
      AllEventLinesAppend(t, b);
      AppendAssoc(EventLines(x), AllEventLines(t), AllEventLines(b));
    }
  }

  lemma {:induction false} FirstFatalAppend(a: seq<Event>, b: seq<Event>)
    ensures FirstFatal(a + b) == if FirstFatal(a).Some? then FirstFatal(a) else FirstFatal(b)
  {
    if a == [] {
      assert a + b == b;
    } else {
      var x, t := a[0], a[1..];
      HeadTail(a);
      AppendAssoc([x], t, b);
      BeforeFatalCons(x, t + b);
      BeforeFatalCons(x, t);
      FirstFatalAppend(t, b);
    }
  }

  lemma BeforeFatalCons(x: Event, s: seq<Event>)
    ensures BeforeFatal([x] + s) == if ProcessEvent(x).Fatal? then [] else [x] + BeforeFatal(s)
    ensures FirstFatal([x] + s) == if ProcessEvent(x).Fatal? then Some(ProcessEvent(x).message) else FirstFatal(s)
  {
    assert ([x] + s)[0] == x;
    assert ([x] + s)[1..] == s;
  }

  lemma {:induction false} BeforeFatalAppend(a: seq<Event>, b: seq<Event>)
    ensures BeforeFatal(a + b) == if FirstFatal(a).Some? then BeforeFatal(a) else a + BeforeFatal(b)
  {
    if a == [] {
      assert a + b == b;
    } else {
      var x, t := a[0], a[1..];
      HeadTail(a);
      AppendAssoc([x], t, b);
      BeforeFatalCons(x, t + b);
      BeforeFatalCons(x, t);
      if !ProcessEvent(x).Fatal? {
        BeforeFatalAppend(t, b);
        AppendAssoc([x], t, BeforeFatal(b));
      }
    }
  }

  /**
   * Handling a run of events stops with the first fatal event's message, and
   * prints exactly the lines of the events before it, all tab-indented.
   */
  lemma {:induction false} RenderEventsSpec(es: seq<Event>)
    ensures RenderEvents(es).fatal == FirstFatal(es)
    ensures RenderEvents(es).lines == AllEventLines(BeforeFatal(es))
    ensures AllTabLed(RenderEvents(es).lines)
  {
    if es != [] {
      RenderEventsSpec(es[1..]);
      var rest := BeforeFatal(es[1..]);
      if !ProcessEvent(es[0]).Fatal? {
        assert ([es[0]] + rest)[0] == es[0];
        assert ([es[0]] + rest)[1..] == rest;
      }
    }
  }

  /** A header is not tab-indented when the rendered day is not. */
  lemma HeaderNotTabLed(k: Key, showDay: int -> string)
    requires !TabLed(showDay(k.day))
    ensures !TabLed(Header(k, showDay))
    ensures Headers([Header(k, showDay)]) == [Header(k, showDay)]
    ensures Details([Header(k, showDay)]) == []
  {
    var header := Header(k, showDay);
    if showDay(k.day) == [] {
      assert header[0] == ' ';
    } else {
      assert header[0] == showDay(k.day)[0];
    }
    var single: seq<string> := [header];
    assert single[1..] == [];
  }

  /** The lines printed for the first group, before the rest of the groups. */
  function FirstGroupOutput(g: Group, showDay: int -> string): Output {
    Then(Output([Header(g.key, showDay)], None), RenderEvents(g.events))
  }

  /** The printer stops exactly at the first fatal event, in group order. */
  lemma {:induction false} RenderGroupsFatal(gs: seq<Group>, showDay: int -> string)
    ensures RenderGroups(gs, showDay).fatal == FirstFatal(Flatten(gs))
  {
    if gs != [] {
      RenderGroupsFatal(gs[1..], showDay);
      RenderEventsSpec(gs[0].events);
      FirstFatalAppend(gs[0].events, Flatten(gs[1..]));
    }
  }

  /**
   * The tab-indented lines the printer produces are precisely the lines of
   * the events handled before the first fatal one, in group order.
   */
  lemma {:induction false} RenderGroupsDetails(gs: seq<Group>, showDay: int -> string)
    requires forall d :: !TabLed(showDay(d))
    ensures Details(RenderGroups(gs, showDay).lines) == AllEventLines(BeforeFatal(Flatten(gs)))
  {
    if gs != [] {
      var g := gs[0];
      var ev := RenderEvents(g.events);
      var first := FirstGroupOutput(g, showDay);
      var rest := RenderGroups(gs[1..], showDay);
      RenderGroupsDetails(gs[1..], showDay);
      RenderEventsSpec(g.events);
      AllTabLedDetails(ev.lines);
      BeforeFatalAppend(g.events, Flatten(gs[1..]));
      HeaderNotTabLed(g.key, showDay);
      DetailsAppend([Header(g.key, showDay)], ev.lines);
      assert Details(first.lines) == ev.lines;
      if ev.fatal.None? {
        assert RenderGroups(gs, showDay).lines == first.lines + rest.lines;
        DetailsAppend(first.lines, rest.lines);
        BeforeFatalAppend(g.events, []);
        assert g.events + [] == g.events;
        assert BeforeFatal(g.events) == g.events;
        assert Flatten(gs) == g.events + Flatten(gs[1..]);
        AllEventLinesAppend(g.events, BeforeFatal(Flatten(gs[1..])));
      } else {
        assert RenderGroups(gs, showDay) == first;
      }
    }
  }

  /**
   * When no event is fatal, the lines that are not tab-indented are exactly
   * one header per group, in group order.
   */
  lemma {:induction false} RenderGroupsHeaders(gs: seq<Group>, showDay: int -> string)
    requires forall d :: !TabLed(showDay(d))
    requires RenderGroups(gs, showDay).fatal.None?
    ensures Headers(RenderGroups(gs, showDay).lines) == HeaderLines(gs, showDay)
  {
    if gs != [] {
      var g := gs[0];
      var ev := RenderEvents(g.events);
      var first := FirstGroupOutput(g, showDay);
      var rest := RenderGroups(gs[1..], showDay);
      assert ev.fatal.None? && rest.fatal.None?;
      RenderGroupsHeaders(gs[1..], showDay);
      RenderEventsSpec(g.events);
      AllTabLedDetails(ev.lines);
      HeaderNotTabLed(g.key, showDay);
      HeadersAppend([Header(g.key, showDay)], ev.lines);
      assert RenderGroups(gs, showDay).lines == first.lines + rest.lines;
      HeadersAppend(first.lines, rest.lines);
    }
  }

  /**
   * End to end: the run stops at the first fatal event of the sorted kept
   * events; the event lines printed are those of the sorted kept events
   * handled before it; when nothing is fatal there is one header per group
   * of the organizer, in order.
   */
  lemma RunTimelineSpec(events: seq<Event>, username: string,
                        localDay: int -> int, showDay: int -> string)
    requires forall d :: !TabLed(showDay(d))
    ensures var out := RunTimeline(events, username, localDay, showDay);
            var sorted := SortByKey(Filter(events, username), localDay);
            && out.fatal == FirstFatal(sorted)
            && Details(out.lines) == AllEventLines(BeforeFatal(sorted))
            && (out.fatal.None? ==> Headers(out.lines) == HeaderLines(Organize(events, username, localDay), showDay))
  {
    var groups := Organize(events, username, localDay);
    RenderGroupsFatal(groups, showDay);
    RenderGroupsDetails(groups, showDay);
    if RunTimeline(events, username, localDay, showDay).fatal.None? {
      RenderGroupsHeaders(groups, showDay);
    }
  }
}

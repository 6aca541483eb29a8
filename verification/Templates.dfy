/** app/services/email_templates.py: a base template merged with one event's override. */
module Templates {
  import opened Basics

  datatype BaseTemplate = BaseTemplate(subject: string, body: string, active: bool, version: int)

  /** A null column inherits from the base; a null window bound means unbounded. */
  datatype Override = Override(
    subject: Option<string>,
    body: Option<string>,
    active: Option<bool>,
    windowStart: Option<Time>,
    windowEnd: Option<Time>,
    baseVersion: Option<int>)

  datatype Effective = Effective(
    subject: string,
    body: string,
    active: bool,
    windowStart: Option<Time>,
    windowEnd: Option<Time>,
    baseVersion: int,
    overridden: bool,
    stale: bool)

  /** The two rows one resolution can read: the base row for a key, and the override for an event. */
  datatype Catalog = Catalog(base: Option<BaseTemplate>, override: Option<Override>)

  /** An active base template that no event overrides. */
  const PLAIN: Catalog := Catalog(Some(BaseTemplate("subject", "body", true, 1)), None)

  function Inherit<T>(own: Option<T>, inherited: T): T {
    if own.Some? then own.value else inherited
  }

  /** get_effective_template: `event` is the row's event cycle id. */
  function Resolve(c: Catalog, event: Option<int>): Option<Effective> {
    if c.base.None? then None
    else
      var b := c.base.value;
      if event.None? || c.override.None? then
        Some(Effective(b.subject, b.body, b.active, None, None, b.version, false, false))
      else
        var o := c.override.value;
        Some(Effective(
               Inherit(o.subject, b.subject),
               Inherit(o.body, b.body),
               b.active && Inherit(o.active, true),
               o.windowStart,
               o.windowEnd,
               b.version,
               true,
               o.baseVersion.Some? && o.baseVersion.value != b.version))
  }

  /** Whether an email may go out or be queued at all under this catalog. */
  predicate Speaks(c: Catalog, event: Option<int>) {
    var e := Resolve(c, event);
    e.Some? && e.value.active
  }

  function WindowStart(c: Catalog, event: Option<int>): Option<Time> {
    var e := Resolve(c, event);
    if e.Some? then e.value.windowStart else None
  }

  function WindowEnd(c: Catalog, event: Option<int>): Option<Time> {
    var e := Resolve(c, event);
    if e.Some? then e.value.windowEnd else None
  }

  const NEUTRAL: Override := Override(None, None, None, None, None, None)

  /** How the merge behaves, whatever the rows hold: a template speaks for an event exactly when
      the base is active and the override does not say otherwise; a row with no event sees no
      override; an override that sets nothing changes nothing; text an override sets is the text,
      and text it leaves is the base's; windows are the override's own; and an override goes stale
      exactly when the base leaves the version the override was written against. */
  lemma MergeLaws(b: BaseTemplate, b': BaseTemplate, o: Override, event: int)
    ensures var c, plain := Catalog(Some(b), Some(o)), Catalog(Some(b), None);
            && (Speaks(c, Some(event)) <==> b.active && o.active != Some(false))
            && (Speaks(plain, Some(event)) <==> b.active)
            && (Speaks(c, None) <==> b.active)
            && Resolve(c, None) == Resolve(plain, None) == Resolve(plain, Some(event))
            && Resolve(Catalog(Some(b), Some(NEUTRAL)), Some(event)).value ==
               Resolve(plain, Some(event)).value.(overridden := true)
    ensures var e := Resolve(Catalog(Some(b), Some(o)), Some(event)).value;
            var e' := Resolve(Catalog(Some(b'), Some(o)), Some(event)).value;
            && (if o.subject.Some? then e.subject == e'.subject == o.subject.value
                else e.subject == b.subject && e'.subject == b'.subject)
            && (if o.body.Some? then e.body == e'.body == o.body.value
                else e.body == b.body && e'.body == b'.body)
            && e.windowStart == e'.windowStart == o.windowStart && e.windowEnd == e'.windowEnd == o.windowEnd
            && (o.baseVersion == Some(b.version) ==> !e.stale && (e'.stale <==> b'.version != b.version))
  {
  }
}

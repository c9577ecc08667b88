/**
 * The process-wide translators of Retranslator.cpp: one owned slot per
 * category (s_brandingTranslator, s_tztranslator, s_translator), the
 * locale name of the last installation (s_translatorLocaleName), and
 * loadSingletonTranslator / installTranslator, which swap a new translator
 * into a slot.
 *
 * A translator is an id handed out by a counter (standing in for `new
 * QTranslator`). The `Registry` holds the translators that exist, with
 * what each loaded, and those installed in the application with
 * QCoreApplication::installTranslator; `calls` records the remove, delete
 * and install steps in the order they are taken, and each step changes the
 * registry as `Apply` says.
 */
module Installer {
  import opened Wrappers
  import opened Translation

  type TranslatorId = nat

  /** The three categories, each with its own slot. */
  datatype Category = BrandingCategory | TimezoneCategory | ApplicationCategory

  /** A step that changes which translators exist or are active. */
  datatype Step =
    | Removed(translator: TranslatorId)    // QCoreApplication::removeTranslator
    | Deleted(translator: TranslatorId)    // delete
    | Installed(translator: TranslatorId)  // QCoreApplication::installTranslator

  /** The steps loadSingletonTranslator takes to replace `previous` by `next`. */
  function SwapSteps(previous: Option<TranslatorId>, next: TranslatorId): seq<Step> {
    (if previous.Some? then [Removed(previous.value), Deleted(previous.value)] else []) + [Installed(next)]
  }

  /**
   * The translators that exist, with what each loaded (`live`: allocated
   * and not deleted), and those installed in the application (`active`).
   */
  datatype Registry = Registry(live: map<TranslatorId, Content>, active: set<TranslatorId>)

  /** The effect of one step on the registry. */
  function Apply(r: Registry, s: Step): Registry {
    match s
    case Removed(t) => r.(active := r.active - {t})
    case Deleted(t) => r.(live := r.live - {t})
    case Installed(t) => r.(active := r.active + {t})
  }

  /** The registry after taking `steps` in order. */
  function Replay(r: Registry, steps: seq<Step>): Registry {
    if steps == [] then r else Apply(Replay(r, steps[..|steps| - 1]), steps[|steps| - 1])
  }

  /** Replaying one more step applies it to the registry reached so far. */
  lemma ReplaySnoc(r: Registry, steps: seq<Step>, s: Step)
    ensures Replay(r, steps + [s]) == Apply(Replay(r, steps), s)
  {
    assert (steps + [s])[..|steps|] == steps;
  }

  /** `new QTranslator()` followed by its load: `next` exists and holds `content`. */
  function Allocate(r: Registry, next: TranslatorId, content: Content): Registry {
    r.(live := r.live[next := content])
  }

  /** The three slots (s_brandingTranslator, s_tztranslator, s_translator). */
  datatype Slots = Slots(branding: Option<TranslatorId>, tz: Option<TranslatorId>, app: Option<TranslatorId>)

  /** The slot of a category. */
  function Get(s: Slots, c: Category): Option<TranslatorId> {
    match c
    case BrandingCategory => s.branding
    case TimezoneCategory => s.tz
    case ApplicationCategory => s.app
  }

  /** `translator_p = translator` for the slot of a category. */
  function Put(s: Slots, c: Category, t: TranslatorId): Slots {
    match c
    case BrandingCategory => s.(branding := Some(t))
    case TimezoneCategory => s.(tz := Some(t))
    case ApplicationCategory => s.(app := Some(t))
  }

  /** Whether one of the three slots holds `t`. */
  predicate Holds(s: Slots, t: TranslatorId) {
    s.branding == Some(t) || s.tz == Some(t) || s.app == Some(t)
  }

  /**
   * The slot invariant: each slot holds an allocated translator of its own,
   * and the held translators are exactly the live and the active ones.
   */
  ghost predicate SlotsValid(s: Slots, nextId: TranslatorId, r: Registry) {
    (s.branding.Some? ==> s.branding.value < nextId) &&
    (s.tz.Some? ==> s.tz.value < nextId) &&
    (s.app.Some? ==> s.app.value < nextId) &&
    (s.branding.Some? ==> s.branding != s.tz && s.branding != s.app) &&
    (s.tz.Some? ==> s.tz != s.app) &&
    (forall t :: t in r.live <==> Holds(s, t)) &&
    (forall t :: t in r.active <==> Holds(s, t))
  }

  /** `s` without the translator in `slot`, if any (removeTranslator). */
  function Retire(s: set<TranslatorId>, slot: Option<TranslatorId>): set<TranslatorId>
  {
    if slot.Some? then s - {slot.value} else s
  }

  /** `m` without the translator in `slot`, if any (delete). */
  function Free(m: map<TranslatorId, Content>, slot: Option<TranslatorId>): map<TranslatorId, Content>
  {
    if slot.Some? then m - {slot.value} else m
  }

  /**
   * Replaying the swap of `previous` for a new `next`: the translator
   * deleted is no longer installed when it is deleted, the two are never
   * installed at the same time, and the swap ends with `previous` gone from
   * both sets and `next` installed.
   */
  lemma {:induction false} SwapReplay(r: Registry, previous: Option<TranslatorId>, next: TranslatorId)
    requires previous.Some? ==> previous.value != next
    requires next !in r.active
    ensures var steps := SwapSteps(previous, next);
      Replay(r, steps) == Registry(Free(r.live, previous), Retire(r.active, previous) + {next}) &&
      (forall k :: 0 <= k < |steps| && steps[k].Deleted? ==> steps[k].translator !in Replay(r, steps[..k]).active) &&
      (forall k :: 0 <= k <= |steps| && previous.Some? && previous.value in Replay(r, steps[..k]).active ==>
         next !in Replay(r, steps[..k]).active)
  {
    var steps := SwapSteps(previous, next);
    assert steps[..0] == [];
    assert steps[..|steps|] == steps;
    if previous.Some? {
      var p := previous.value;
      var r1 := Apply(r, Removed(p));
      var r2 := Apply(r1, Deleted(p));
      assert steps[..1] == [Removed(p)] && steps[..1][..0] == [];
      assert steps[..2] == [Removed(p), Deleted(p)] && steps[..2][..1] == steps[..1];
      assert steps[..3][..2] == steps[..2];
      assert Replay(r, steps[..1]) == r1;
      assert Replay(r, steps[..2]) == r2;
      assert Replay(r, steps) == Apply(r2, Installed(next));
    } else {
      assert steps == [Installed(next)] && steps[..1][..0] == [];
    }
  }

  /**
   * The registry after one loadSingletonTranslator into the slot of `c`:
   * `next` is allocated holding `content`, then the swap steps are taken.
   */
  function SwapIn(r: Registry, s: Slots, c: Category, next: TranslatorId, content: Content): Registry {
    Replay(Allocate(r, next, content), SwapSteps(Get(s, c), next))
  }

  /** Swapping a fresh translator into any one slot keeps the invariant. */
  lemma SwapKeepsValid(s: Slots, nextId: TranslatorId, r: Registry, c: Category, content: Content)
    requires SlotsValid(s, nextId, r)
    ensures SlotsValid(Put(s, c, nextId), nextId + 1,
                       Registry(Free(r.live[nextId := content], Get(s, c)), Retire(r.active, Get(s, c)) + {nextId}))
  {
    match c
    case BrandingCategory =>
    case TimezoneCategory =>
    case ApplicationCategory =>
  }

  /**
   * One loadSingletonTranslator on values: the old translator of the slot
   * is neither installed nor allocated afterwards, the new one is installed
   * and holds what its loader loaded, and the invariant is kept.
   */
  lemma SwapEffect(s: Slots, nextId: TranslatorId, r: Registry, c: Category, content: Content)
    requires SlotsValid(s, nextId, r)
    ensures SwapIn(r, s, c, nextId, content) ==
            Registry(Free(r.live[nextId := content], Get(s, c)), Retire(r.active, Get(s, c)) + {nextId})
    ensures Get(s, c).Some? ==>
      Get(s, c).value !in SwapIn(r, s, c, nextId, content).active &&
      Get(s, c).value !in SwapIn(r, s, c, nextId, content).live
    ensures SlotsValid(Put(s, c, nextId), nextId + 1, SwapIn(r, s, c, nextId, content))
  {
    SwapReplay(Allocate(r, nextId, content), Get(s, c), nextId);
    SwapKeepsValid(s, nextId, r, c, content);
  }

  /** When every slot is occupied, the live and active translators are exactly the three held ones. */
  lemma HeldAreAll(s: Slots, nextId: TranslatorId, r: Registry)
    requires SlotsValid(s, nextId, r) && s.branding.Some? && s.tz.Some? && s.app.Some?
    ensures var held := {s.branding.value, s.tz.value, s.app.value};
      r.live.Keys == held && r.active == held && |held| == 3
  {
  }

  /**
   * installTranslator on values: after the three swaps (`r1`, `r2`, `r3`)
   * the slots hold `n`, `n + 1` and `n + 2`, each holding what its loader
   * loaded, and they are the only translators allocated or installed.
   */
  lemma InstallEffect(s: Slots, n: TranslatorId, r: Registry, r1: Registry, r2: Registry, r3: Registry,
                      branding: Content, tz: Content, app: Content)
    requires SlotsValid(s, n, r)
    requires r1 == SwapIn(r, s, BrandingCategory, n, branding)
    requires r2 == SwapIn(r1, Put(s, BrandingCategory, n), TimezoneCategory, n + 1, tz)
    requires r3 == SwapIn(r2, Put(Put(s, BrandingCategory, n), TimezoneCategory, n + 1), ApplicationCategory, n + 2, app)
    ensures SlotsValid(Slots(Some(n), Some(n + 1), Some(n + 2)), n + 3, r3)
    ensures r3.live[n] == branding && r3.live[n + 1] == tz && r3.live[n + 2] == app
    ensures r3.active == {n, n + 1, n + 2}
  {
    var s1 := Put(s, BrandingCategory, n);
    var s2 := Put(s1, TimezoneCategory, n + 1);
    SwapEffect(s, n, r, BrandingCategory, branding);
    assert r1.live[n] == branding;
    SwapEffect(s1, n + 1, r1, TimezoneCategory, tz);
    assert r2.live[n] == branding;
    SwapEffect(s2, n + 2, r2, ApplicationCategory, app);
    assert r3.live[n] == branding && r3.live[n + 1] == tz;
    assert Put(s2, ApplicationCategory, n + 2) == Slots(Some(n), Some(n + 1), Some(n + 2));
    HeldAreAll(Slots(Some(n), Some(n + 1), Some(n + 2)), n + 3, r3);
  }

  class TranslatorSlots {
    var slots: Slots
    var localeName: string  // s_translatorLocaleName
    var nextId: TranslatorId
    var registry: Registry
    var calls: seq<Step>

    ghost predicate Valid()
      reads this
    {
      SlotsValid(slots, nextId, registry)
    }

    /** translatorLocaleName() */
    function TranslatorLocaleName(): string
      reads this
    {
      localeName
    }

    /** The state before any installation: no translators at all. */
    constructor ()
      ensures Valid()
      ensures slots == Slots(None, None, None)
      ensures localeName == [] && registry == Registry(map[], {}) && calls == []
    {
      slots := Slots(None, None, None);
      localeName := [];
      nextId := 0;
      registry := Registry(map[], {});
      calls := [];
    }

    /** Each active translator is held by exactly one category's slot. */
    lemma ActiveHeldOnce(t: TranslatorId)
      requires Valid() && t in registry.active
      ensures exists c: Category :: Get(slots, c) == Some(t)
      ensures forall c: Category, d: Category :: Get(slots, c) == Some(t) && Get(slots, d) == Some(t) ==> c == d
    {
      if slots.branding == Some(t) {
        assert Get(slots, BrandingCategory) == Some(t);
      } else if slots.tz == Some(t) {
        assert Get(slots, TimezoneCategory) == Some(t);
      } else {
        assert Get(slots, ApplicationCategory) == Some(t);
      }
    }

    /** Takes one step: applies it to the registry and appends it to the log. */
    method Record(s: Step)
      modifies this`registry, this`calls
      ensures registry == Apply(old(registry), s)
      ensures calls == old(calls) + [s]
    {
      registry := Apply(registry, s);
      calls := calls + [s];
    }

    /**
     * Lines 152-158 of loadSingletonTranslator: `previous`, if any, is
     * removed from the application and deleted, then `next` is installed,
     * one logged step at a time.
     */
    method Swap(previous: Option<TranslatorId>, next: TranslatorId)
      modifies this`registry, this`calls
      ensures registry == Replay(old(registry), SwapSteps(previous, next))
      ensures calls == old(calls) + SwapSteps(previous, next)
    {
      ghost var start := registry;
      if previous.Some? {
        Record(Removed(previous.value));
        ReplaySnoc(start, [], Removed(previous.value));
        Record(Deleted(previous.value));
        ReplaySnoc(start, [Removed(previous.value)], Deleted(previous.value));
      }
      ghost var done := if previous.Some? then [Removed(previous.value), Deleted(previous.value)] else [];
      assert registry == Replay(start, done);
      Record(Installed(next));
      ReplaySnoc(start, done, Installed(next));
    }

    /**
     * loadSingletonTranslator: a new translator is allocated and loaded by
     * `loader`; the one in the slot of `category`, if any, is removed from
     * the application and then deleted; then the new one is installed and
     * put in the slot, whether or not its load succeeded.
     */
    method LoadSingletonTranslator(loader: Loader, category: Category, store: Store)
      requires Valid()
      modifies this
      ensures Valid()
      ensures nextId == old(nextId) + 1
      ensures slots == Put(old(slots), category, old(nextId))
      ensures calls == old(calls) + SwapSteps(Get(old(slots), category), old(nextId))
      ensures registry == SwapIn(old(registry), old(slots), category, old(nextId), TryLoad(loader, store).content)
      ensures localeName == old(localeName)
    {
      var translator := nextId;
      var outcome := TryLoad(loader, store);  // the result of tryLoad is not used
      var previous := Get(slots, category);
      SwapKeepsValid(slots, nextId, registry, category, outcome.content);
      SwapReplay(Allocate(registry, nextId, outcome.content), previous, nextId);
      nextId := nextId + 1;
      registry := Allocate(registry, translator, outcome.content);
      Swap(previous, translator);
      slots := Put(slots, category, translator);
    }

    /**
     * installTranslator: replaces the branding, timezone and application
     * translators, in that order, and records the munged locale name. The
     * `parent` argument is not used.
     */
    method InstallTranslator(locale: Locale, brandingTranslationsPrefix: string, parent: nat, store: Store)
      requires Valid()
      modifies this
      ensures Valid()
      ensures var n := old(nextId);
        slots == Slots(Some(n), Some(n + 1), Some(n + 2)) && nextId == n + 3 &&
        registry.live[n] == TryLoad(BrandingLoader(locale, brandingTranslationsPrefix), store).content &&
        registry.live[n + 1] == TryLoad(TZLoader(locale), store).content &&
        registry.live[n + 2] == TryLoad(CalamaresLoader(locale), store).content &&
        registry.active == {n, n + 1, n + 2}
      ensures calls == old(calls) + SwapSteps(old(slots).branding, old(nextId))
                                  + SwapSteps(old(slots).tz, old(nextId) + 1)
                                  + SwapSteps(old(slots).app, old(nextId) + 2)
      ensures TranslatorLocaleName() == MungeLocaleName(locale)
    {
      ghost var n, s0, r0, calls0 := nextId, slots, registry, calls;
      var branding := BrandingLoader(locale, brandingTranslationsPrefix);
      LoadSingletonTranslator(branding, BrandingCategory, store);
      ghost var r1 := registry;
      LoadSingletonTranslator(TZLoader(locale), TimezoneCategory, store);
      ghost var r2, calls2 := registry, calls;
      assert calls2 == calls0 + SwapSteps(s0.branding, n) + SwapSteps(s0.tz, n + 1);
      var loader := CalamaresLoader(locale);
      LoadSingletonTranslator(loader, ApplicationCategory, store);
      assert calls == calls2 + SwapSteps(s0.app, n + 2);
      InstallEffect(s0, n, r0, r1, r2, registry, TryLoad(branding, store).content,
                    TryLoad(TZLoader(locale), store).content, TryLoad(loader, store).content);
      localeName := LoaderLocaleName(loader);
    }
  }
}

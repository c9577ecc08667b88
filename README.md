# Retranslator: translation loading and retranslation in Calamares

This is a model of `src/libcalamares/utils/Retranslator.cpp` from the Calamares installer framework. The file has two jobs.

- **Installing translators.** `installTranslator(locale, brandingTranslationsPrefix, parent)` munges the locale into a resource name. It then loads three translators: branding, timezone names and the application itself. Each one replaces the previous translator of its category in the application. `translatorLocaleName()` reports the munged name of the last installation.
- **Retranslation notifiers.** `Retranslator::attachRetranslator(parent, f)` finds or creates the single `Retranslator` child of a widget. It appends `f` to that notifier's callback list and runs `f` once. The Retranslator is installed as an event filter on its parent. When the parent receives a `LanguageChange` event, it runs every callback in order and then emits `languageChange()`.

The model has four modules:

- `wrappers.dfy` (`Wrappers`): the `Option` type, standing for a pointer that may be null.
- `translation.dfy` (`Translation`, pure):
  - the locale munging;
  - the three `tryLoad` implementations, as functions over a `Store`. The store says which resources, locale-aware catalogues and directories exist.
- `installer.dfy` (`Installer`, imperative): class `TranslatorSlots`.
  - Its fields are the three process-wide translator slots and the recorded locale name.
  - A `Registry` value keeps the live (allocated, not deleted) translators and the active (installed) ones.
  - A log records the remove, delete and install steps. Each step is taken one at a time and changes the registry as `Apply` says.
  - Translators are ids handed out by a counter.
- `retranslation.dfy` (`Retranslation`, imperative): class `ObjectTree`.
  - It holds Qt's object tree as an `ObjectTable` value: kinds, parents, ordered child lists and installed event filters.
  - It holds each Retranslator's callback list (`m_retranslateFuncList`).
  - It holds a trace of the callbacks run and the signals emitted.

The invariant `TreeValid` states four things:
- every child is known and points back to its parent;
- every Retranslator has a callback list;
- every Retranslator is installed as a filter on its parent;
- no object has two Retranslator children.

Every method of `ObjectTree` preserves it.

## Model

| member | source | states |
|---|---|---|
| Translation.MungeLocaleName | src/libcalamares/utils/Retranslator.cpp:35-53 | definition of `mungeLocaleName`: replace dashes, `C` to `en`, then the `sr@latin` override; its properties are `MungeSerbianLatin`, `MungeOtherLocale`, `MungeHasNoDash` and `MungeNonEmpty` |
| Translation.ReplaceDashes | src/libcalamares/utils/Retranslator.cpp:37-38 | the result has the input's length and, position by position, each `-` becomes `_` and every other character is kept |
| Translation.ReplaceDashesIsC | src/libcalamares/utils/Retranslator.cpp:38-43 | a name replaces to `"C"` exactly when it is `"C"` itself, so the `C` to `en` rule applies to the name `C` and no other |
| Translation.MungeSerbianLatin | src/libcalamares/utils/Retranslator.cpp:45-51 | a Serbian locale in Latin script munges to `sr@latin`, whatever its name or region |
| Translation.MungeOtherLocale | src/libcalamares/utils/Retranslator.cpp:35-53 | for any other locale: the name `C` gives `en`; otherwise the result is the name with every `-` replaced by `_`, same length, other characters unchanged |
| Translation.MungeHasNoDash | src/libcalamares/utils/Retranslator.cpp:35-53 | the munged name never contains `-` |
| Translation.MungeNonEmpty | src/libcalamares/utils/Retranslator.cpp:35-53 | a locale with a non-empty name has a non-empty munged name |
| Translation.LastIndexOf | src/libcalamares/utils/Retranslator.cpp:84 | the result is -1 exactly when the character is absent; otherwise it is a position holding the character with no later occurrence |
| Translation.BrandingDirPath | src/libcalamares/utils/Retranslator.cpp:83-84 | definition of the branding directory path, the prefix truncated at its last separator; its properties are `BrandingSplit` and `BrandingSplitNoSeparator` |
| Translation.BrandingFileBase | src/libcalamares/utils/Retranslator.cpp:88-89 | definition of the branding file base, the prefix after its last separator; its properties are `BrandingSplit` and `BrandingSplitNoSeparator` |
| Translation.BrandingSplit | src/libcalamares/utils/Retranslator.cpp:83-89 | with a separator in the prefix, directory + separator + file base equals the prefix, and the base holds no separator |
| Translation.BrandingSplitNoSeparator | src/libcalamares/utils/Retranslator.cpp:83-89 | without a separator the directory path is empty and the file base is the whole prefix |
| Translation.BrandingTryLoad | src/libcalamares/utils/Retranslator.cpp:77-103 | definition of `BrandingLoader::tryLoad`; its properties are `BrandingFailsWithoutDirectory`, `BrandingDefault` and `TryLoadFromStore` |
| Translation.LoadWithDefault | src/libcalamares/utils/Retranslator.cpp:112-124 | definition of the body shared by `CalamaresLoader::tryLoad` and `TZLoader::tryLoad` (lines 130-143); its properties are `PrimaryThenDefault` and `TryLoadFromStore` |
| Translation.TryLoad | src/libcalamares/utils/Retranslator.cpp:77-143 | definition of the virtual `tryLoad`, dispatched on the loader; its properties are `TryLoadFromStore`, `PrimaryThenDefault` and `SerbianLatinFallsBackToEnglish` |
| Translation.BrandingFailsWithoutDirectory | src/libcalamares/utils/Retranslator.cpp:79-86 | an empty prefix, or a directory that does not exist, returns false with nothing loaded and nothing attempted |
| Translation.BrandingDefault | src/libcalamares/utils/Retranslator.cpp:95-100 | when the directory exists but the locale-aware load misses, the result is whether the literal `prefix + "en"` exists, and that file is loaded |
| Translation.PrimaryThenDefault | src/libcalamares/utils/Retranslator.cpp:112-143 | the application and timezone loaders try `stem + munged name` first: if it exists, true with that file and no fallback; otherwise the result is whether `stem + "en"` exists; true exactly when one of the two exists |
| Translation.TryLoadFromStore | src/libcalamares/utils/Retranslator.cpp:77-143 | every loader returns true exactly when its translator holds something, and what it holds exists in the store |
| Translation.SerbianLatinFallsBackToEnglish | src/libcalamares/utils/Retranslator.cpp:45-51 | a Serbian Latin locale, with no `sr@latin` application catalogue but an English one, loads `:/lang/calamares_en` through the default route |
| Installer.Apply | src/libcalamares/utils/Retranslator.cpp:154-158 | definition of one step's effect: `removeTranslator` leaves the installed set, `delete` leaves the allocated ones, `installTranslator` joins the installed set; its properties are `SwapReplay` and `SwapEffect` |
| Installer.SwapReplay | src/libcalamares/utils/Retranslator.cpp:152-158 | replaying the swap steps from any registry where the new translator is not yet installed: the old translator is no longer installed when it is deleted, the old and the new one are never installed at the same time, and the end state has the old one removed and freed and the new one installed |
| Installer.SwapKeepsValid | src/libcalamares/utils/Retranslator.cpp:149-159 | swapping a freshly allocated translator into any one slot, with the old one freed and removed, keeps the slots distinct and the live and installed translators exactly the held ones |
| Installer.SwapEffect | src/libcalamares/utils/Retranslator.cpp:146-160 | one `loadSingletonTranslator` on values: the replayed registry is the old one with the old translator removed and freed and the new one installed holding what its loader loaded; the old one is neither installed nor allocated; the invariant is kept |
| Installer.InstallEffect | src/libcalamares/utils/Retranslator.cpp:169-178 | the three swaps of `installTranslator` on values: the slots hold `n`, `n + 1`, `n + 2`, each holding what the branding, timezone and application loader loaded, and exactly these three are installed |
| Installer.HeldAreAll | src/libcalamares/utils/Retranslator.cpp:164-166 | once all three slots are filled, exactly those three translators are allocated and installed, and they are distinct |
| Installer.TranslatorSlots.constructor | src/libcalamares/utils/Retranslator.cpp:164-167 | at start every slot is null, the locale name is empty and no translator exists or is active |
| Installer.TranslatorSlots.ActiveHeldOnce | src/libcalamares/utils/Retranslator.cpp:164-166 | every active translator is held by the slot of exactly one category |
| Installer.TranslatorSlots.Record | src/libcalamares/utils/Retranslator.cpp:154-158 | one step of the swap: the registry changes as `Apply` says and the step is appended to the log |
| Installer.TranslatorSlots.Swap | src/libcalamares/utils/Retranslator.cpp:152-158 | the steps of the swap, taken one at a time: the registry ends as the replay of `SwapSteps` and the log grows by exactly those steps, remove and delete before install |
| Installer.TranslatorSlots.LoadSingletonTranslator | src/libcalamares/utils/Retranslator.cpp:146-160 | the slot of the category holds the new translator whatever `tryLoad` returned, the others are unchanged; the registry is the old one with the new translator allocated holding what the loader loaded and the swap steps replayed, and the log records those steps in order (their effect is stated by `SwapReplay` and `SwapEffect`); the locale name is unchanged |
| Installer.TranslatorSlots.InstallTranslator | src/libcalamares/utils/Retranslator.cpp:169-178 | the branding, timezone and application slots get three new translators, in that order, holding what the matching loaders loaded, and these are exactly the installed ones; the log is the three swaps in order; `TranslatorLocaleName()` is then the munged name of the locale; `parent` has no effect |
| Installer.TranslatorSlots.TranslatorLocaleName | src/libcalamares/utils/Retranslator.cpp:181-185 | definition of `translatorLocaleName()`: the recorded name, which `InstallTranslator` proves to be the munged name of the last installed locale |
| Retranslation.Invocations | src/libcalamares/utils/Retranslator.cpp:225-228 | definition of running a callback list in order; its properties are `InvocationsAt` and `InvocationsCount` |
| Retranslation.InvocationsAt | src/libcalamares/utils/Retranslator.cpp:225-228 | running a callback list produces one step per callback, the k-th step running the k-th callback |
| Retranslation.InvocationsCount | src/libcalamares/utils/Retranslator.cpp:225-228 | every callback runs as many times as it was registered, so once if registered once |
| Retranslation.FirstRetranslator | src/libcalamares/utils/Retranslator.cpp:191-198 | none exactly when no child is a Retranslator; otherwise a child that is a Retranslator and no earlier child is one, as the early return of the loop gives |
| Retranslation.CreateObject | src/libcalamares/utils/Retranslator.cpp:212 | definition of `QObject( parent )`: a fresh object appended to its parent's child list; its properties are `CreateObjectKnown`, `CreateObjectOnePerParent` and `CreatePlainKeepsValid` |
| Retranslation.InstallEventFilter | src/libcalamares/utils/Retranslator.cpp:214 | definition of `parent->installEventFilter( this )`: the filter joins the parent's filter set; its property is `CreateRetranslatorKeepsValid` |
| Retranslation.FirstRetranslatorAppend | src/libcalamares/utils/Retranslator.cpp:200-212 | appending a new Retranslator to a child list that has none makes it the one found |
| Retranslation.CreateObjectKnown | src/libcalamares/utils/Retranslator.cpp:212 | creating an object under a known parent keeps the object table consistent: every child is known and points back to its parent |
| Retranslation.CreateObjectOnePerParent | src/libcalamares/utils/Retranslator.cpp:200-212 | creating a plain object, or a Retranslator under a parent with none, keeps at most one Retranslator per child list |
| Retranslation.CreatePlainKeepsValid | src/libcalamares/utils/Retranslator.cpp:212 | creating a plain object keeps the tree invariant |
| Retranslation.CreateRetranslatorKeepsValid | src/libcalamares/utils/Retranslator.cpp:211-215 | creating a Retranslator under a parent with none, installing it as that parent's filter and giving it an empty callback list keeps the tree invariant |
| Retranslation.RegisterKeepsValid | src/libcalamares/utils/Retranslator.cpp:206 | replacing a callback list keeps the tree invariant |
| Retranslation.ObjectTree.AtMostOneRetranslator | src/libcalamares/utils/Retranslator.cpp:187-201 | in a valid tree two Retranslator children of one parent are the same object |
| Retranslation.ObjectTree.AddObject | src/libcalamares/utils/Retranslator.cpp:212 | a plain object created under a known parent, or as a root, is recorded in the table and keeps the invariant |
| Retranslation.ObjectTree.FindRetranslatorChild | src/libcalamares/utils/Retranslator.cpp:190-198 | the loop over `parent->children()` returns the parent's Retranslator child, or none when it has none |
| Retranslation.ObjectTree.NewRetranslator | src/libcalamares/utils/Retranslator.cpp:211-215 | the new Retranslator is a child of `parent`, is installed as its event filter and starts with no callbacks; it is then the parent's Retranslator child |
| Retranslation.ObjectTree.RetranslatorFor | src/libcalamares/utils/Retranslator.cpp:187-201 | returns the parent's Retranslator child: the existing one with nothing changed, or a newly created one only when there was none; the invariant, and so at most one per parent, is kept |
| Retranslation.ObjectTree.AttachRetranslator | src/libcalamares/utils/Retranslator.cpp:203-208 | the parent's callback list is the old one with the callback appended at the end, no other list changes, and the callback runs exactly once, immediately |
| Retranslation.ObjectTree.EventFilter | src/libcalamares/utils/Retranslator.cpp:218-234 | a LanguageChange sent to the parent runs every registered callback once, in registration order, then emits `languageChange`; any other event, or an event for another object, runs nothing; the event is never filtered out |

## Left out

- `QTranslator::load` is not modelled; a `Store` stands in for it. A plain path load succeeds when the path is in `Store.files`. The locale-aware `load(locale, baseName, "_", dir)` succeeds when its query is in `Store.catalogs`, because Qt's search over locale variants and file suffixes belongs to Qt. What a translator then holds is recorded as `Content`.
- `QDir::exists` is `Store.directories` membership. When the prefix has no separator, or only a leading one, the directory path is `""`, which `QDir` takes as the working directory, and that always exists. The model does not force `""` into `Store.directories`, so it also admits stores no real run produces. `QDir::absolutePath()` is not modelled: the catalogue query records the truncated directory path as it is.
- `QDir::separator()` is fixed as `/`, as on the platforms Calamares runs on.
- Translation.Truncate is the definition of the stand-in for `QString::truncate`, not a proved result. A negative position gives its Qt 5 behaviour, the empty string; this case arises for a prefix without a separator.
- Translation.LoadFile is the definition of the stand-in for `QTranslator::load(path)`, not a proved result: it succeeds exactly when the path is in the store.
- The `cDebug()` lines are not modelled. Only which of them would be written is kept, as `Route`.
- Qt's event dispatch is not modelled. `EventFilter` is one call with the object and event type received. "Passing the event on to `QObject::eventFilter`" is modelled as its result: `false`, so the event is not filtered out.
- Qt keeps an object's event filters in an ordered, de-duplicated list. The model keeps them as a set, since each Retranslator installs itself once on one object.
- Object destruction is not modelled: deleting a parent with its Retranslator child, or the removal of a deleted filter.
- Callback bodies are opaque ids. Running one appends an `Invoked` entry to the trace, and anything a callback does is not modelled. This includes a callback that re-enters `attachRetranslator`: `foreach` iterates a copy of the list, and the model iterates the list as it was when the event arrived.
- Translators and objects are ids from a counter, standing in for `new`. Memory exhaustion is not modelled.
- `installTranslator`'s `parent` argument is accepted and unused, exactly as in the source.
- Retranslation.ObjectTree.constructor: an empty object table, the model's starting state. It is not an operation of this file.
- Retranslation.ObjectTree.AddObject: stands for the creation of any other `QObject` in the program (the `QObject( parent )` base construction). It exists so that trees with several objects can be built. It is not an operation of this file.
- Retranslation.ObjectTree.NewRetranslator: requires that `parent` has no Retranslator child. Its only caller, `retranslatorFor`, calls it only then. A direct `new Retranslator( parent )` elsewhere, which could make a second one, is not modelled.
- The branding fallback loads the literal `prefix + "en"` (a `TODO` in the source notes it "loads something completely different"). It is modelled as written, and no other intended behaviour is assumed.

# dynamic_frontpage, modelled in Dafny

The Drupal module `dynamic_frontpage` serves a different front page per host
name, and it has an administration form for editing the table that sets this up.

- **The front-page router** (`DynamicFrontpageSubscriber::checkFrontRedirection`)
  runs on every kernel request. It acts only on the main request for the site's
  front page. There it reads the configured `(domain, entity_type, entity_id)`
  pairs and builds a table from domain to path. A pair is added only when its
  entity loads and its type has a `canonical` link template. A loaded entity
  whose type has no such template is skipped, with a warning naming the type.
  The stored path is the entity's alias when that alias is truthy, and its
  canonical URL otherwise. A later pair overwrites an earlier one for the same
  domain. The request host picks a non-empty table entry; failing that, the
  site's `page.front` is used. A GET sub-request for that path copies the
  original's scheme, host, port, headers and cookies. The kernel's response to
  it becomes the event's response.
- **The mapping editor** (`DomainEntityConfigForm`) keeps a working list of pairs
  in the form state. The list comes from the form state, else from the
  configuration, else it is empty. "Add" appends an empty `node` row. A
  `remove_<i>` button deletes row `i` and re-indexes the list. Saving keeps, in
  order, the rows whose three fields are all non-empty, and replaces the
  configured list with them wholesale. The entity-type select offers the
  content-group types, sorted by label.

The model is written in four modules:

- `Php` (php.dfy) covers the PHP semantics these decisions rely on. Scalars are
  a `Value`. `IsEmpty` is `empty()`, which is also truthiness and the test
  behind `?:`. `Coalesce` is `??`, which only null falls through. `ArrayKey` is
  the key cast behind `$array[$v]`: integer strings become integers, null
  becomes "", and booleans become 0 and 1. `NatToString` is how PHP prints a
  non-negative integer, and `IntToString` how it prints any integer.
- `DomainEntity` (domain_entity.dfy) holds the shared data: the `Pair` record,
  the configuration object, and the entity services as plain functions.
- `FrontpageSubscriber` (frontpage_subscriber.dfy) is the router.
  - The pure specification is `FrontPages`, `Warnings`, `ChosenPath` and
    `FrontRedirect`, with lemmas about them.
  - `CollectFrontPages` is the foreach loop, proved against that specification.
  - The class `DynamicFrontpageSubscriber` holds the injected collaborators.
    Its `CheckFrontRedirection` changes the `RequestEvent` and the `Logger`.
- `ConfigForm` (config_form.dfy) is the editor.
  - The specification functions are `InitialPairs`, `RowEntityType`,
    `RemovedPairs`, `Unset`, `Kept`, `ContentChoices` and `Asort`, with lemmas
    about them.
  - The loops are `BuildRows`, `FilterRows` and `GetEntityTypeOptions`.
  - The classes are `FormState` and `DomainEntityConfigForm`. The callbacks
    update the form state, and `SubmitForm` replaces the configuration.

The host framework's services are parameters or constant fields. Entity
loading, the `canonical` template test, canonical-URL generation, the alias
manager, `path.matcher`'s front-page test and the HTTP kernel's `handle` are
all given as functions. The request host is an opaque string. The lemma
`StringKeysInjective` shows that looking it up through PHP's key cast
amounts to comparing it exactly.

Three details of the code are easy to misread:

- A stored alias is used only when it is truthy. An alias of "0" therefore
  falls back to the canonical URL.
- A table entry for the host is used only when it is non-empty. An empty
  entry also falls back to `page.front`.
- A submitted entity type of "" is kept by `??` in `buildForm`. It is not
  replaced by `node`.

## Model

| member | source | states |
|---|---|---|
| `FrontpageSubscriber.DynamicFrontpageSubscriber.CheckFrontRedirection` | src/EventSubscriber/DynamicFrontpageSubscriber.php:33-94 | Off the main request or off the front page, the event's response and the log stay as they were. Otherwise the response is exactly the kernel's response to the sub-request `FrontRedirect` describes, and the pairs' warnings are appended to the log. |
| `FrontpageSubscriber.RequestEvent.SetResponse` | src/EventSubscriber/DynamicFrontpageSubscriber.php:92 | The event's response becomes the given one. |
| `FrontpageSubscriber.StoredPath` | src/EventSubscriber/DynamicFrontpageSubscriber.php:50-54 | The path saved for a pair whose entity loads with a canonical template: the alias of its canonical URL when that alias is truthy, else the canonical URL itself. |
| `FrontpageSubscriber.FrontPages` | src/EventSubscriber/DynamicFrontpageSubscriber.php:38-54 | Each resolvable pair, in list order, sets the entry at the array key of its domain to its stored path. Other pairs leave the table alone. |
| `FrontpageSubscriber.Warnings` | src/EventSubscriber/DynamicFrontpageSubscriber.php:55-59 | Each pair, in list order, whose entity loads but whose type has no canonical template adds one warning naming that type. Other pairs add none. |
| `FrontpageSubscriber.SubRequest` | src/EventSubscriber/DynamicFrontpageSubscriber.php:81-89 | A GET request for the path, with the original request's secure flag, host, port, headers and cookies. |
| `FrontpageSubscriber.FrontRedirect` | src/EventSubscriber/DynamicFrontpageSubscriber.php:34-89 | Off the main request or off the front page there is no sub-request. Otherwise it is the sub-request for the path chosen for the host from the table of the configured pairs (or [] when none are stored). |
| `FrontpageSubscriber.CollectFrontPages` | src/EventSubscriber/DynamicFrontpageSubscriber.php:38-62 | The loop over the pairs yields exactly the table `FrontPages` and the warnings `Warnings`. |
| `FrontpageSubscriber.FrontPagesAppend` | src/EventSubscriber/DynamicFrontpageSubscriber.php:44-54 | A pair whose entity fails to load, or whose type lacks a canonical template, leaves the table unchanged, including any earlier entry for its domain. A resolvable pair sets its domain's entry to its path. |
| `FrontpageSubscriber.WarningsAppend` | src/EventSubscriber/DynamicFrontpageSubscriber.php:47-59 | A pair logs exactly one warning, naming its entity type, when its entity loads but the type has no canonical template. Any other pair logs nothing. |
| `FrontpageSubscriber.WarningsFromUnsupported` | src/EventSubscriber/DynamicFrontpageSubscriber.php:55-59 | There are never more warnings than pairs. Each warning names the type of some pair that loaded without a canonical template. |
| `FrontpageSubscriber.FrontPagesEntry` | src/EventSubscriber/DynamicFrontpageSubscriber.php:39-54 | The table has an entry for a key exactly when some resolvable pair's domain casts to that key. The entry is the stored path of the last such pair in list order. |
| `FrontpageSubscriber.ChosenPath` | src/EventSubscriber/DynamicFrontpageSubscriber.php:69-79 | The chosen path is either `page.front`, or the host's table entry when that entry exists and is non-empty. When the host's entry exists and is non-empty, it is the chosen path. |
| `FrontpageSubscriber.FrontRedirectShape` | src/EventSubscriber/DynamicFrontpageSubscriber.php:34-89 | A sub-request is built exactly on the main request for the front page, so a sub-request never triggers another. It is a GET whose path is the chosen path, with the original's secure flag, host, port, headers and cookies. |
| `FrontpageSubscriber.UnmappedHostGetsDefault` | src/EventSubscriber/DynamicFrontpageSubscriber.php:69-79 | A host that no resolvable pair names is served `page.front`. |
| `FrontpageSubscriber.MappedHostGetsEntityPath` | src/EventSubscriber/DynamicFrontpageSubscriber.php:50-79 | A host whose last resolvable pair is at index k is served that pair's truthy alias or canonical URL, or `page.front` when that path is empty. |
| `Php.StringKeysInjective` | src/EventSubscriber/DynamicFrontpageSubscriber.php:77 | Two host strings reach the same array key only when they are equal, so the table lookup compares hosts exactly. |
| `Php.IntegerKeyCanonical` | src/EventSubscriber/DynamicFrontpageSubscriber.php:54 | A string that PHP casts to an integer key is that integer's own decimal printing. |
| `Php.CanonicalDigitsPrint` | src/Form/DomainEntityConfigForm.php:91 | A canonical digit string is how PHP prints its value. |
| `Php.NatToString` | src/Form/DomainEntityConfigForm.php:91 | PHP prints an index as canonical decimal digits, and only 0 is printed as "0". |
| `Php.NatToStringValue` | src/Form/DomainEntityConfigForm.php:91 | The digits printed for an index denote that index. |
| `Php.NatStringKey` | src/Form/DomainEntityConfigForm.php:187 | A printed index used as an array key is the integer key of that index. |
| `Php.IsEmpty` | src/EventSubscriber/DynamicFrontpageSubscriber.php:77 | PHP's `empty()`: null, false, 0, "" and "0" are empty, and every other value is truthy. |
| `Php.Coalesce` | src/Form/DomainEntityConfigForm.php:36 | PHP's `??`: the left value unless it is null, in which case the right one. |
| `Php.IntegerKey` | src/Form/DomainEntityConfigForm.php:187 | A string key becomes an integer key exactly when it is "0", or digits without a leading zero, optionally after a '-' (but not "-0"), within the 64-bit range. |
| `Php.ArrayKey` | src/EventSubscriber/DynamicFrontpageSubscriber.php:54 | The key `$array[$v]` uses: null becomes "", booleans become 0 and 1, integers stay, and a string becomes its integer when `IntegerKey` gives one. |
| `ConfigForm.InitialPairs` | src/Form/DomainEntityConfigForm.php:36 | The working list is the form state's `pairs` if set, else the configured `domain_entity_pairs`, else empty. |
| `ConfigForm.RowEntityType` | src/Form/DomainEntityConfigForm.php:57 | A row's entity type is the submitted value if it is not null, else the row's stored type, else `node`. It is never null. |
| `ConfigForm.RowWidgetAt` | src/Form/DomainEntityConfigForm.php:56-99 | Row i shows its pair's domain and the effective entity type. The entity is loaded only when the stored id is non-empty, and the remove button is named `remove_<i>`. |
| `ConfigForm.BuildRows` | src/Form/DomainEntityConfigForm.php:56-100 | One widget row per pair, in order. Each row carries the pair's domain, its effective entity type, the entity loaded for a non-empty id, and the button name `remove_<i>`. |
| `ConfigForm.DomainEntityConfigForm.BuildForm` | src/Form/DomainEntityConfigForm.php:32-100 | It stores the initial working list back into the form state and builds its rows. Nothing else in the form state changes. |
| `ConfigForm.ContentChoicesExact` | src/Form/DomainEntityConfigForm.php:124-129 | An option is present exactly when some definition has group `content` and the option is that definition's id with its label. |
| `ConfigForm.ContentChoices` | src/Form/DomainEntityConfigForm.php:124-129 | The (id, label) options of the content-group definitions, in registry order. Other groups are skipped. |
| `ConfigForm.LabelLess` | src/Form/DomainEntityConfigForm.php:132 | Lexicographic order on labels by character code, with a proper prefix ordered first. |
| `ConfigForm.InsertByLabel` | src/Form/DomainEntityConfigForm.php:132 | Inserting an option adds exactly that option. |
| `ConfigForm.InsertKeepsSorted` | src/Form/DomainEntityConfigForm.php:132 | Inserting into a list sorted by label keeps it sorted. |
| `ConfigForm.LabelLessTransitive` | src/Form/DomainEntityConfigForm.php:132 | The label order is transitive. |
| `ConfigForm.Asort` | src/Form/DomainEntityConfigForm.php:132 | Sorting permutes the options and leaves their labels in non-decreasing order. |
| `ConfigForm.DomainEntityConfigForm.GetEntityTypeOptions` | src/Form/DomainEntityConfigForm.php:120-135 | The options are a permutation of the content-group definitions' (id, label) entries, ordered by label. |
| `ConfigForm.DomainEntityConfigForm.AddCallback` | src/Form/DomainEntityConfigForm.php:155-169 | The working list becomes the old list, or [] when none is stored, with the row {"", "node", ""} appended, and a rebuild is requested. The earlier rows are unchanged and the length grows by one. |
| `ConfigForm.RemoveMatchLeftmost` | src/Form/DomainEntityConfigForm.php:179-180 | Searching from a position finds nothing exactly when no later position starts `remove_` and a digit. Otherwise it captures the whole digit run after the leftmost such position. |
| `ConfigForm.RemoveMatch` | src/Form/DomainEntityConfigForm.php:179 | From the given position on, the digits after the first `remove_<digit>`, or None when there is none. |
| `ConfigForm.RemoveIndex` | src/Form/DomainEntityConfigForm.php:179-180 | The captured index is None exactly when `remove_(\d+)` matches nowhere in the name. Otherwise it is the maximal, non-empty digit run after the leftmost `remove_<digit>`. |
| `ConfigForm.RemoveButtonRoundTrip` | src/Form/DomainEntityConfigForm.php:179-180 | Parsing the name `'remove_' . i` gives back the digits of i, and those digits are the integer key i. |
| `ConfigForm.Unset` | src/Form/DomainEntityConfigForm.php:187-190 | For an index in range, the result is one shorter: rows before the index are unchanged and later rows shift down by one. Any other key leaves the list as it was. |
| `ConfigForm.RemovedPairs` | src/Form/DomainEntityConfigForm.php:179-194 | With no captured index nothing is stored. Otherwise it stores the form state's list (or []) with the row at the index's array key removed and the rest re-indexed. |
| `ConfigForm.DomainEntityConfigForm.RemoveCallback` | src/Form/DomainEntityConfigForm.php:174-196 | A name without a match changes nothing. Otherwise the working list becomes `RemovedPairs`, which has row i removed when i is in range and is unchanged when it is not, and a rebuild is requested. |
| `ConfigForm.RemoveButtonRemovesRow` | src/Form/DomainEntityConfigForm.php:174-196 | Pressing the remove button built for row i yields `pairs[..i] + pairs[i+1..]`. |
| `ConfigForm.AddThenRemove` | src/Form/DomainEntityConfigForm.php:155-196 | Removing the row that "Add" just appended gives back the list as it was. |
| `ConfigForm.KeptSize` | src/Form/DomainEntityConfigForm.php:210-219 | The saved list has one entry per complete row, so it is no longer than the submitted rows. Every entry has a non-empty domain, entity type and entity id. |
| `ConfigForm.KeptPosition` | src/Form/DomainEntityConfigForm.php:210-219 | A complete row k is saved, holding exactly its three submitted fields, at the position given by the number of complete rows before it. |
| `ConfigForm.KeptOrder` | src/Form/DomainEntityConfigForm.php:210-219 | Complete rows keep their relative order in the saved list. |
| `ConfigForm.Kept` | src/Form/DomainEntityConfigForm.php:209-219 | The submitted rows whose domain, entity type and entity id are all non-empty, in order, each reduced to those three fields. |
| `ConfigForm.SubmitExample` | src/Form/DomainEntityConfigForm.php:210-219 | The rows a.com/page/1, a blank row and b.com/article/2 save as exactly the first and the last, in that order. |
| `ConfigForm.FilterRows` | src/Form/DomainEntityConfigForm.php:209-219 | The loop over the submitted rows builds exactly `Kept`. |
| `ConfigForm.DomainEntityConfigForm.SubmitForm` | src/Form/DomainEntityConfigForm.php:208-227 | The configured `domain_entity_pairs` becomes exactly the filtered list, replacing any earlier value. Every other configuration key is unchanged. |

## Left out

- Rendering: the render arrays (`#type`, `#ajax`, `#prefix`/`#suffix`,
  `#required`, the select's `#options`), `ajaxRefresh`, `t()` and
  `getFormId`/`getEditableConfigNames` are framework plumbing. `RowWidget` keeps
  only the values a row is built from.
- `updateEntityReferenceAutocomplete` only re-renders one row's autocomplete
  for the framework, so it is not modelled.
- `parent::buildForm` and `parent::submitForm` (the "saved" message) belong to
  the framework.
- The HTTP kernel, `Request::create` and the request's parameter bags are
  outside the model. The sub-request is a plain record, and `Request::create`'s
  parsing of a query string inside the path is not modelled.
- The kernel's `handle` is a pure function of the sub-request. Any side effects
  it has are not modelled.
- Entity storage, entity-type definitions, URL generation, the alias manager and
  `path.matcher` are given as functions. The configuration factory is a map
  value, and durable saving is not modelled.
- An unknown entity type makes the framework's storage lookup throw. Nothing at
  src/EventSubscriber/DynamicFrontpageSubscriber.php:44-47 catches that
  exception. So in the module, a single configured pair whose entity type no
  longer exists makes the front-page request fail for every host. The model
  treats such a pair as an entity that fails to load: it skips the pair and
  serves the page. Exceptions are not modelled.
- `FrontpageSubscriber.RequestEvent.SetResponse`: setting the response also
  stops the event's propagation in the framework. No later request listener
  runs, and the kernel returns this response at once. The event's propagation
  state is not modelled.
- The debug log at src/EventSubscriber/DynamicFrontpageSubscriber.php:72-75
  reads `$entity` left over from the loop. It is undefined when there are no
  pairs, so it is not modelled.
- `FrontpageSubscriber.CollectFrontPages`: the loop returns its warnings and
  `CheckFrontRedirection` appends them to the log right after it. In the
  source each warning is logged inside the loop. The order is the same, and
  nothing else is logged in between.
- PHP floats and arrays as field values are not modelled: `Value` covers null,
  booleans, integers and strings. So the `empty()` cases 0.0 and [] are absent.
- `getValue('pairs')` returning null makes `foreach` warn and save []. That is
  the same saved result as an empty submission, which is how the model
  represents it.
- Form values are assumed to be indexed like the working list, with row i at
  position i.
- `ConfigForm.LabelLess`: labels are compared character by character. PHP's
  `asort` compares numeric-looking labels as numbers, and its collation is not
  modelled.
- `ConfigForm.Asort`: the contract states sortedness and permutation only. It
  does not state that labels equal to each other keep their registry order,
  which PHP 8's `asort` guarantees.
- `ConfigForm.DomainEntityConfigForm.GetEntityTypeOptions`: the same holds for
  ties, which are not stated to keep registry order.
- `ConfigForm.DomainEntityConfigForm.GetEntityTypeOptions`: it requires the
  definitions' ids to be distinct (`DistinctIds`). `getDefinitions()` returns
  an array keyed by entity type id, so the registry cannot list an id twice.
- Integer width: ints are unbounded, except that the key cast admits only
  64-bit integers. A remove index above `PHP_INT_MAX` stays a string key and
  removes nothing.

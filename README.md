# Verified model of a portfolio site's interactive state

The site is a single-page portfolio written with React. Apart from layout and
animation, six components hold small sequential state machines and index
rules, and this project models those in Dafny and proves what they promise.
There is one Dafny module per component:

- `Carousel` (`carousel.dfy`): the project carousel. It keeps an active index
  that moves forward or back around the list of projects, and a direction.
  It also covers drag and dot-click handling, the role of each card (centre,
  left, right, hidden) and how a project card truncates its text and chips.
- `ContactForm` (`contact.dfy`): the contact form. It holds three fields and
  a status (`idle`, `sending`, `success`, `error`). Submitting runs
  validation, then configuration and script checks, then one call to the
  e-mail relay. Timers bring the status back to idle.
- `Skills` (`skills.dfy`): the set of expanded skill categories, the
  category lookups, and the visible slice with its "show more" button.
- `Services` (`services.dfy`): the single-active service toggle, hover
  tracking and the highlight rule. It also covers the technology preview and
  the first-matching-selector search behind "see projects".
- `Navigation` (`navigation.dfy`): hiding the side navigation while scrolling
  down, throttled to one update per animation frame. It also covers the
  active-section update from intersection-observer batches and the colour of
  the indicator.
- `Background` (`background.dfy`): the deterministic position formula, icon
  cycling, animation durations and the throttled mouse-following glow.
- `Common` (`common.dfy`): `Option`, and the "first L items plus a +k badge"
  truncation, which three components share.

State that a component changes in place (`useState` values and closure
variables) is a `class` whose methods have `modifies this`. Their `ensures`
give the whole new state in terms of the old one. Rules that only compute a
value are functions, with lemmas about them. Browser events become explicit
event methods:

- a relay reply is `OnRelaySuccess` or `OnRelayFailure`;
- a `setTimeout` callback firing is `TimerFires(k)`;
- an animation frame running is `UpdateScrollDirection` or `FrameFires`;
- an intersection-observer batch is `OnIntersect`.

Environment values, whether the relay script has loaded, scroll positions,
mouse coordinates and the page's elements are all parameters.

Conventions:
- An environment variable that is unset is written `""`. The source's `||`
  and `!` treat an undefined value and an empty one alike.
- Browser coordinates (drag offset, `scrollY`, `clientX`/`clientY`) are `real`.
- A label with a number in it, such as "+3 more", is modelled by the number
  it shows (`Some(3)`, `More(3)`), not by the rendered text.
- `getDeterministicPosition` uses JavaScript's `%`, whose remainder takes the
  sign of the dividend. It is written out as `JsRem`.

## Notes on the code's behaviour

- Active section. The active section comes only from intersection-observer
  entries (components/smooth-dual-track-navigation.tsx:61-67). Each batch is
  walked in order, and the last intersecting entry wins. Scroll events only
  drive the show/hide flag.
- Scroll progress. The progress bar's height and the indicator's position
  are `useTransform` values derived from a library scroll value, so they are
  left out.
- Relay-side errors. A missing configuration, a missing relay script and a
  relay failure all pass through `sending`, then set `error`, then start a
  5000 ms timer back to `idle` (components/contact-section.tsx:172-215). An
  empty field sets `error` directly, with a 4000 ms timer.
- Error text. Every error shows the same button text, "Please fill all
  fields", even when the fields were filled and the relay failed.

## Model

| member | source | states |
|---|---|---|
| `Common.Prefix` | components/real-projects-section.tsx:653-654 | `slice(0, L)` keeps the first min(len, L) items, unchanged and in order |
| `Common.Truncate` | components/Services.tsx:490-510 | the chips are the prefix; a badge exists iff the list is longer than the limit |
| `Common.TruncateAccountsForAll` | components/real-projects-section.tsx:672-682 | the chips shown plus the rest give back the whole list, and the badge counts exactly the items held back |
| `Common.TruncateShortIsWhole` | components/real-projects-section.tsx:653-682 | a list no longer than the limit is shown whole with no badge |
| `Carousel.NextIndex` | components/real-projects-section.tsx:26-29 | the next index is in [0, n): i+1, or 0 after the last project |
| `Carousel.PrevIndex` | components/real-projects-section.tsx:31-36 | the previous index is in [0, n): i−1, or n−1 before the first project |
| `Carousel.PrevAfterNext` | components/real-projects-section.tsx:26-36 | next then prev restores the active index |
| `Carousel.NextAfterPrev` | components/real-projects-section.tsx:26-36 | prev then next restores the active index |
| `Carousel.NextTimesShift` | components/real-projects-section.tsx:26-29 | k ≤ n nexts give i+k, or i+k−n once past the end |
| `Carousel.FullRound` | components/real-projects-section.tsx:26-29 | n consecutive nexts return to the starting index |
| `Carousel.NextTimesAdd` | components/real-projects-section.tsx:26-29 | a nexts then b nexts equal a+b nexts |
| `Carousel.NextTimesPeriodic` | components/real-projects-section.tsx:26-29 | the index after k nexts repeats with period n |
| `Carousel.DragAction` | components/real-projects-section.tsx:38-45 | offset > 50 goes back, offset < −50 goes forward, \|offset\| ≤ 50 stays |
| `Carousel.DotDirection` | components/real-projects-section.tsx:314-317 | a dot sets direction 1 iff its index is after the active one, else −1 |
| `Carousel.Controller.constructor` | components/real-projects-section.tsx:23-24 | starts at index 0 with direction 0 |
| `Carousel.Controller.HandleNext` | components/real-projects-section.tsx:26-29 | direction 1 and the next index; the index stays in range |
| `Carousel.Controller.HandlePrev` | components/real-projects-section.tsx:31-36 | direction −1 and the previous index; the index stays in range |
| `Carousel.Controller.HandleDragEnd` | components/real-projects-section.tsx:38-45 | acts as prev past +50, as next past −50, and changes nothing otherwise |
| `Carousel.Controller.DotClick` | components/real-projects-section.tsx:314-317 | sets the direction from the old index, then the active index to the target |
| `Carousel.VariantOf` | components/real-projects-section.tsx:209-218 | a card is `center` iff it is the active one; a card that is not `hidden` is the active, previous or next one |
| `Carousel.Variants` | components/real-projects-section.tsx:207-218 | one role per card, in list order |
| `Carousel.CenterIsActive` | components/real-projects-section.tsx:209-210 | a card is `center` iff it is the active one |
| `Carousel.LeftIsPrevious` | components/real-projects-section.tsx:211-215 | a card is `left` iff it is (active−1+n)%n and not the active card |
| `Carousel.RightIsNext` | components/real-projects-section.tsx:216-218 | a card is `right` iff it is (active+1)%n and n ≥ 3: with two projects that card is already `left` |
| `Carousel.HiddenIsFar` | components/real-projects-section.tsx:207-218 | a card is `hidden` iff it is neither active, previous nor next |
| `Carousel.VariantCounts` | components/real-projects-section.tsx:207-218 | exactly one centre; one left if n ≥ 2; one right if n ≥ 3; all the rest hidden (so n = 1 shows only the centre) |
| `Carousel.CategoryLabel` | components/real-projects-section.tsx:519-523 | "Machine Learning" → "ML", "Android Development" → "ANDROID", anything else → "WEB" |
| `Carousel.ChipLimit` | components/real-projects-section.tsx:654 | the chip limit is 5 exactly on mobile and 8 exactly on desktop |
| `Carousel.TechnologyChips` | components/real-projects-section.tsx:653-682 | shows the first min(len, L) technologies, L = 5 on mobile and 8 otherwise; a "+k more" badge iff len > L, with k = len − L |
| `Carousel.CardDescription` | components/real-projects-section.tsx:634-636 | mobile: the first 140 characters, then "..." always; desktop: the whole description |
| `Carousel.ShortMobileDescription` | components/real-projects-section.tsx:634-636 | a description of at most 140 characters is kept whole on mobile and still gets "..." |
| `ContactForm.RecipientName` | components/contact-section.tsx:188 | `to_name` is the owner name, or "Name" when unset |
| `ContactForm.SubmitOutcomeOf` | components/contact-section.tsx:164-194 | an empty field rejects first, then missing configuration, then a missing script; otherwise one send with from_name, from_email and message taken from the fields |
| `ContactForm.UpdateField` | components/contact-section.tsx:218-223 | only the field with the event's name changes; the other two stay the same |
| `ContactForm.UpdateFieldLastWins` | components/contact-section.tsx:218-223 | two changes to one field keep only the second value |
| `ContactForm.UpdateFieldCommutes` | components/contact-section.tsx:218-223 | changes to different fields can be applied in either order |
| `ContactForm.ButtonLabel` | components/contact-section.tsx:583-586 | one text per status; the error text "Please fill all fields" is shown for relay and configuration errors too |
| `ContactForm.SubmitDisabled` | components/contact-section.tsx:563 | the button is disabled iff it reads "Sending..." |
| `ContactForm.DisabledOnlyWhileSending` | components/contact-section.tsx:563 | the button is disabled (status `sending`) only while a relay call is in flight |
| `ContactForm.Form.constructor` | components/contact-section.tsx:142-148 | empty fields, status idle, form hidden, nothing sent |
| `ContactForm.Form.HandleSubmit` | components/contact-section.tsx:164-216 | an empty field gives `error` and a 4000 ms timer. Missing config or script gives `sending` then `error` and a 5000 ms timer. Otherwise exactly one send with the typed values. Fields always unchanged |
| `ContactForm.Form.OnRelaySuccess` | components/contact-section.tsx:196-204 | status `success`, all three fields cleared, timer that resets to idle and hides the form |
| `ContactForm.Form.OnRelayFailure` | components/contact-section.tsx:205-209 | status `error`, fields intact, timer back to idle |
| `ContactForm.Form.TimerFires` | components/contact-section.tsx:196-215 | the fired timer leaves the pending list, the status becomes idle, and the form is hidden iff it was the success timer |
| `ContactForm.Form.HandleInputChange` | components/contact-section.tsx:218-223 | only the named field changes; status, timers and sends are untouched |
| `ContactForm.Form.SetShowForm` | components/contact-section.tsx:434-480 | the flip buttons show or hide the form and change nothing else |
| `Skills.Toggle` | components/skills-section.tsx:29-37 | toggling flips the category's membership and keeps every other category's |
| `Skills.ToggleTwice` | components/skills-section.tsx:29-37 | toggling the same category twice restores the expanded set |
| `Skills.ToggleCommutes` | components/skills-section.tsx:29-37 | toggles of two categories commute |
| `Skills.SkillsView.constructor` | components/skills-section.tsx:24-27 | the expanded set starts empty and nothing is hovered |
| `Skills.SkillsView.ToggleCategory` | components/skills-section.tsx:29-37 | the expanded set becomes the toggled copy; hover is untouched |
| `Skills.SkillsView.MouseEnter` | components/skills-section.tsx:239 | the hovered category is the entered one |
| `Skills.SkillsView.MouseLeave` | components/skills-section.tsx:240 | leaving clears the hovered category |
| `Skills.CategoryIcon` | components/skills-section.tsx:39-52 | the table's icon for a known key, the code icon otherwise |
| `Skills.CategoryColor` | components/skills-section.tsx:54-67 | the table's colour for a known key, the accent colour otherwise |
| `Skills.CategoryTitle` | components/skills-section.tsx:69-82 | the table's title for a known key, the key itself otherwise |
| `Skills.CategoryDescription` | components/skills-section.tsx:84-97 | the table's description for a known key, the generic text otherwise |
| `Skills.Lookup` | components/skills-section.tsx:39-97 | the four known keys get their fixed icon, colour, title and description; any other key gets the code icon, the accent colour, the generic description and its own key as title |
| `Skills.TitlesIdentifyKnownCategories` | components/skills-section.tsx:69-82 | the known categories have distinct titles |
| `Skills.VisibleSkills` | components/skills-section.tsx:318-324 | collapsed shows the first min(len, 8) skills, expanded shows all |
| `Skills.RevealedByExpanding` | components/skills-section.tsx:318-324 | expanding adds len − min(len, 8) skills |
| `Skills.ShowMoreButton` | components/skills-section.tsx:369-405 | the button exists iff len > 5; collapsed it reads "+(len−5) More", expanded "Show Less" |
| `Skills.ShowMoreOverstates` | components/skills-section.tsx:369-405 | as written the collapsed count never matches what expanding reveals |
| `Skills.MlFrameworksButtonPromisesNothing` | components/skills-section.tsx:318-324 | the 8-skill category shows "+3 More" yet expanding adds nothing |
| `Skills.CorrectedShowMoreButton` | components/skills-section.tsx:369-405 | corrected: a button iff len > 8, counting len − 8 |
| `Skills.CorrectedButtonCountsHidden` | components/skills-section.tsx:318-324 | corrected: the button exists iff expanding reveals something, and its count is exactly that |
| `Services.Toggled` | components/Services.tsx:256-258 | a click on the active service closes it, any other click makes that service active |
| `Services.ToggleTwiceFromNone` | components/Services.tsx:256-258 | two clicks on one card from the closed state close it again |
| `Services.ServicesView.constructor` | components/Services.tsx:247-248 | nothing active, nothing hovered |
| `Services.ServicesView.ToggleService` | components/Services.tsx:256-258 | the active service becomes the toggled value; hover untouched |
| `Services.ServicesView.HandleCardHover` | components/Services.tsx:260-262 | hover start sets the card, hover end clears it whichever card was hovered |
| `Services.HighlightAfterHover` | components/Services.tsx:368-393 | a card is highlighted iff hovered or active: after hover ends only the active one stays highlighted |
| `Services.Highlighted` | components/Services.tsx:368-393 | an expanded card is always highlighted, whatever is hovered |
| `Services.ShowsDetails` | components/Services.tsx:516 | a card shows its expanded content iff a click on it would close it |
| `Services.AtMostOneExpanded` | components/Services.tsx:516 | among distinct cards, expanded content renders for exactly one if the active id is among them, else none |
| `Services.ClickExpandsOnlyThatCard` | components/Services.tsx:377 | clicking a closed service card expands that card and only that one |
| `Services.TechnologyPreview` | components/Services.tsx:490-510 | the first min(len, 4) technologies and a "+(len−4)" badge iff len > 4 |
| `Services.FirstMatch` | components/Services.tsx:266-278 | the element of the first selector in list order that matches; none iff no selector matches |
| `Services.ScrollToProjects` | components/Services.tsx:264-286 | the loop with `break` scrolls to the first matching selector's element, and to nothing when none matches |
| `Navigation.Clamp` | components/smooth-dual-track-navigation.tsx:45 | the remembered `lastScrollY` is max(scrollY, 0), never negative |
| `Navigation.VisibleAfter` | components/smooth-dual-track-navigation.tsx:44 | the navigation shows after a frame whenever the page is within 100 px of the top or has moved up |
| `Navigation.DownwardHides` | components/smooth-dual-track-navigation.tsx:44 | scrolling down (or not moving) at 100 px or more hides the navigation |
| `Navigation.ScrollTracker.constructor` | components/smooth-dual-track-navigation.tsx:33-40 | visible, not ticking, no frame pending, `lastScrollY` the initial position |
| `Navigation.ScrollTracker.OnScroll` | components/smooth-dual-track-navigation.tsx:49-54 | requests a frame only when not ticking, then ticks; at most one frame is ever pending |
| `Navigation.ScrollTracker.UpdateScrollDirection` | components/smooth-dual-track-navigation.tsx:42-47 | visible iff scrollY < lastScrollY or scrollY < 100; `lastScrollY` clamped; ticking cleared |
| `Navigation.AfterBatch` | components/smooth-dual-track-navigation.tsx:61-67 | the observer's `forEach` over a batch: when the batch's last entry intersects, its target becomes active |
| `Navigation.LastIntersectingWins` | components/smooth-dual-track-navigation.tsx:61-67 | the active section is the target of the last intersecting entry of the batch |
| `Navigation.NoIntersectingKeeps` | components/smooth-dual-track-navigation.tsx:61-67 | a batch with no intersecting entry leaves the active section unchanged |
| `Navigation.AfterBatchFrom` | components/smooth-dual-track-navigation.tsx:61-67 | the new active section is the old one or some intersecting entry's target |
| `Navigation.ActiveStaysListed` | components/smooth-dual-track-navigation.tsx:69-72 | only listed sections are observed, so the active section stays a listed id |
| `Navigation.SectionIdsDistinct` | components/smooth-dual-track-navigation.tsx:20-29 | the section ids are pairwise distinct |
| `Navigation.SectionSpy.constructor` | components/smooth-dual-track-navigation.tsx:32 | the active section starts as "home" |
| `Navigation.SectionSpy.OnIntersect` | components/smooth-dual-track-navigation.tsx:61-67 | the `forEach` loop leaves the batch's result and keeps the section listed |
| `Navigation.Find` | components/smooth-dual-track-navigation.tsx:124 | `find` returns the first section with the id, or nothing iff none has it |
| `Navigation.IndicatorColor` | components/smooth-dual-track-navigation.tsx:124 | the indicator's colour is always the accent colour or one of the sections' colours |
| `Navigation.IndicatorColorOfSection` | components/smooth-dual-track-navigation.tsx:124 | the indicator has the active section's colour, or the accent colour for an unknown id |
| `Navigation.ScrollTarget` | components/smooth-dual-track-navigation.tsx:82-87 | a navigation click scrolls iff the page has an element with the section id |
| `Background.JsRem` | components/animated-background.tsx:67 | JavaScript's `%`: a = q·b + r for some integer q, with r in [0, b) for a ≥ 0 and in (−b, 0] for a < 0, so r is the remainder of the division truncated toward zero |
| `Background.Position` | components/animated-background.tsx:66-68 | `getDeterministicPosition`: for index ≥ 0 the position lies in [base, base+69], for a negative index in [base−69, base] |
| `Background.DefaultPosition` | components/animated-background.tsx:66 | the default base is 25 |
| `Background.PositionPeriodic` | components/animated-background.tsx:67 | the position repeats with period 14, since 15·14 = 3·70 |
| `Background.FirstPeriodDistinct` | components/animated-background.tsx:67 | indices 0 to 13 get 14 different positions |
| `Background.ServiceIcon` | components/animated-background.tsx:76-77 | every element gets one of the six service icons |
| `Background.ServiceIconsCycle` | components/animated-background.tsx:76-77 | element i gets `serviceIcons[i % 6]`: period 6, each icon once per six elements |
| `Background.ServiceDuration` | components/animated-background.tsx:103 | service durations are 4 + i % 3, in {4, 5, 6} |
| `Background.ServiceDelay` | components/animated-background.tsx:105 | service delays are 0, 0.7 or 1.4 s |
| `Background.ParticleDuration` | components/animated-background.tsx:177 | particle durations are 2 + i % 3, in {2, 3, 4} |
| `Background.ParticleDelay` | components/animated-background.tsx:179 | particle delays are 0 or 0.5 s |
| `Background.OrbSize` | components/animated-background.tsx:124-125 | orbs are at least 100 px |
| `Background.OrbDuration` | components/animated-background.tsx:141 | orbs loop in at least 8 s |
| `Background.OrbsGrow` | components/animated-background.tsx:124-141 | later orbs are strictly larger and slower |
| `Background.TimingCycles` | components/animated-background.tsx:103-179 | durations and delays repeat with period 3 (2 for particle delays) |
| `Background.FollowerTarget` | components/animated-background.tsx:205-206 | the glow goes to (x − 192, y − 192) |
| `Background.MouseFollower.constructor` | components/animated-background.tsx:43-49 | position (0, 0), not ticking, no frame pending |
| `Background.MouseFollower.HandleMouseMove` | components/animated-background.tsx:51-59 | dropped while ticking; otherwise schedules a frame carrying this event's clientX/clientY |
| `Background.MouseFollower.FrameFires` | components/animated-background.tsx:53-56 | records the position of the event that scheduled the frame and clears ticking |

## Left out

- Rendering is not modelled: JSX, Tailwind classes, framer-motion variants,
  spring and easing transitions, inline styles and the number-to-text
  formatting of badges. These are presentation only.
- The e-mail relay itself is not modelled: the script tag's injection and
  removal (components/contact-section.tsx:150-162) and the network call are
  foreign code. A call is recorded in `sent`, and its outcome comes back as
  an event method.
- Timer delays are not modelled as time. Each pending timer carries its
  delay (4000 or 5000 ms) only as a label. Which timer fires next is an input
  (`TimerFires(k)`), so the model also covers overlapping timers.
- `Form.HandleSubmit` is not guarded by the disabled button in the model: it
  can be called in any state. The button is enabled in `idle`, `success` and
  `error` (components/contact-section.tsx:561-563), and two clicks can land
  before React re-renders it as disabled. So the model lets a second submit
  start while a first send is in flight, which the `inFlight` counter tracks.
- `ContactForm.UpdateField` models only the three fields. In JavaScript, a
  change event with any other `name` would add an extra key to `formData`.
  No input on the page has such a name.
- `Carousel.Controller`'s constructor requires at least one project. With an
  empty `realProjects`, `% 0` gives NaN in the source and the mobile card
  would read past the list. The data has four projects.
- `Navigation.ScrollTracker.UpdateScrollDirection` and
  `Background.MouseFollower.FrameFires` require a pending frame. A frame
  callback only runs after `requestAnimationFrame` asked for it.
- `Navigation.SectionSpy.OnIntersect` requires every entry to target a listed
  section, because the observer only observes those elements. Elements
  missing from the page are simply never reported.
- Library-computed and random values are not modelled: all `Math.random()`
  positions and the `useTransform` train and progress values are randomness
  and library floating point.
- The page-level scroll progress percentage is not modelled. It comes from a
  library scroll value that this model does not include.
- `scrollIntoView`, `window.open`, `mailto:`/`tel:` links and the résumé
  download are DOM effects. Only the guard that decides whether a scroll
  happens is modelled (`Services.ScrollToProjects`, `Navigation.ScrollTarget`).
- The education carousel in components/education-section.tsx is not part of
  this model. Its rotation uses floating-point angles, for which exact
  round trips do not hold.
- components/AboutSection.tsx is not part of this model. It is a single
  setter driven by a library viewport callback.
- The data tables in `data/*.ts`, app/layout.tsx and next.config.js are not
  part of this model. Two pieces of data appear as concrete constants: the
  8-skill machine-learning category and the list of service ids.
- Strings are sequences of characters. JavaScript's `substring(0, 140)`
  counts UTF-16 code units, so a character outside the Basic Multilingual
  Plane counts as 2 there and as 1 here.

## Findings

| source | as written | input that shows it | evidently intended | confidence | as-written member | corrected member |
|---|---|---|---|---|---|---|
| components/skills-section.tsx:318-324 | a collapsed card lists 8 skills, but the button appears above 5 skills and reads "+(len−5) More" (line 405) | the "mlFrameworks" category (8 skills): all 8 are listed, the button says "+3 More", and expanding adds none; with 10 skills it says "+5 More" and reveals 2 | the button appears when expanding reveals something, and counts what it reveals (len − 8) | medium, not executed | `Skills.ShowMoreOverstates`, `Skills.MlFrameworksButtonPromisesNothing` | `Skills.CorrectedShowMoreButton`, `Skills.CorrectedButtonCountsHidden` |

The as-written `Skills.ShowMoreButton` is kept because it models what the page
renders today. `Skills.CorrectedShowMoreButton` is the definition the intended
property is proved about.

# Package remediation cards and fleet view, in Dafny

This project models the two client components of a dependency-upgrade dashboard.

`PackageCard` shows one tracked package. Its remediation state is three busy flags (`isUpgrading`, `isCommitting`, `isCheckingOut`), a `wasUpgraded` flag and one replaceable success or error `message`. Three handlers drive the server actions: upgrade dependencies, commit and push, and check out or pull the default branch. Pure conditions decide which buttons are shown, with which icon, caption and "+N" badge, and whether each button is enabled.

`PackageListClient` shows the fleet. Its only state is the `showOnlyVulnerable` flag. From the package list it derives:

- the vulnerable count;
- the filtered list;
- the header "Found N package(s)" with its "(showing N)" note;
- either the filter toggle with an "N vulnerable" pill, or "All secure".

Modules:

- `Wrappers` (wrappers.dfy): `Option`, standing for TypeScript's optional and nullable values.
- `Text` (text.dfy): how a count is rendered as a decimal numeral, and the parse that reads it back.
- `Packages` (packages.dfy): the `PackageInfo` record, JavaScript truthiness of optional strings, and `IsVulnerable`. `IsVulnerable` is defined as `isReactVulnerable || isNextVulnerable`, the expression at src/components/PackageCard.tsx:35-36 and src/components/PackageListClient.tsx:17,21.
- `PackageCard` (package_card.dfy):
  - the card state as a value (`CardState`);
  - spec functions `Start` and `Complete` for the two halves of each handler;
  - the button conditions;
  - class `Card`, whose fields are the component's state variables. Each handler becomes two methods, `StartX` for the part before the `await` and `CompleteX(outcome)` for the part after it. Each method is proved equal to the spec function.
- `CardTraces` (card_traces.dfy): runs of a card. A run is a sequence of clicks and completions. Each click carries the package record the card was rendered with at that moment, so the record may change during a run. A run is legal when every click hits a rendered, enabled button and every completion belongs to an operation in flight. This module holds the invariants of such runs.
- `PackageList` (package_list.dfy):
  - the filter, the count and the other display derivations, as functions over the package sequence;
  - lemmas about them;
  - class `FleetView`, which holds the `showOnlyVulnerable` flag and its `Toggle` method.

The model follows what the code does, including where a tidier design would differ:

- The state is three independent booleans. There is no single phase tag that would rule out two operations running at once.
- The handlers check nothing themselves. Only the buttons' `disabled` conditions guard them.
- Checkout is disabled while anything is busy. Upgrade and commit are disabled only while upgrading or committing. So an upgrade or a commit can start while a checkout is in flight (`CardTraces.UpgradeCanOverlapCheckout`). Only "upgrade and commit never overlap" holds (`CardTraces.LegalRunsKeepExclusion`).
- "On the default branch" means `gitBranch` is literally `"main"` or `"master"`. The code never compares it with `defaultBranch`.
- A result with an empty `message` or `error` falls back to the fixed text, because JavaScript's `||` treats `""` as false.

## Model

| member | source | states |
|---|---|---|
| Packages.IsVulnerable | src/components/PackageCard.tsx:35-36 | a package is vulnerable if its React version is vulnerable or its Next.js version is, and not vulnerable when neither is |
| Text.Decimal | src/components/PackageCard.tsx:145 | a rendered count is a non-empty string of digits with no leading zero |
| Text.ParseDecimalRoundTrip | src/components/PackageCard.tsx:145 | reading back the numeral rendered for `n` gives `n` |
| Text.DecimalInjective | src/components/PackageListClient.tsx:53 | two different counts are never rendered as the same text |
| PackageCard.OrElse | src/components/PackageCard.tsx:45 | `text \|\| fallback`: the action's text when it is present and non-empty, else the fallback; non-empty whenever the fallback is |
| PackageCard.Report | src/components/PackageCard.tsx:44-51 | the message is a success message iff the action succeeded; it is never empty; it is the action's message or error when given, else the operation's fallback ("Upgraded!"/"Upgrade failed", "Committed and pushed!"/"Commit failed", "Checked out!"/"Checkout failed"); a thrown fault gives "An unexpected error occurred" |
| PackageCard.Start | src/components/PackageCard.tsx:39-40 | starting an operation sets its own busy flag and clears the message; `wasUpgraded` and the other two flags keep their values |
| PackageCard.Complete | src/components/PackageCard.tsx:43-54 | completing an operation clears its busy flag on every outcome, fault included; the other two flags are untouched; the message becomes the outcome's report; `wasUpgraded` becomes true exactly on a successful upgrade and is otherwise unchanged |
| PackageCard.BadgeText | src/components/PackageCard.tsx:145 | the badge is "+" followed by the plain numeral of N (digits, no leading zero), and it reads back as N |
| PackageCard.CheckoutButton | src/components/PackageCard.tsx:115-147 | the button is shown iff `gitBranch` and `defaultBranch` are non-empty and (the branch is neither main nor master, or `commitsBehindDefault` is a number > 0); it is enabled iff no flag is busy; the icon is a spinner iff checking out, otherwise Download on main/master and Home elsewhere; the caption is "Pull" on main/master, otherwise `defaultBranch`, and is never empty; a badge is present iff the branch is behind; it is "+" followed by the numeral of `commitsBehindDefault`, and it reads back as that count |
| PackageCard.UpgradeButton | src/components/PackageCard.tsx:212-225 | shown iff the package is vulnerable; enabled iff neither upgrading nor committing; spinner icon iff upgrading, ArrowUpCircle otherwise; captioned "Upgrade Dependencies", with no badge |
| PackageCard.CommitButton | src/components/PackageCard.tsx:210-240 | shown iff the package is vulnerable or was upgraded; enabled iff neither upgrading nor committing; spinner icon iff committing, GitCommit otherwise; captioned "Commit & Push", with no badge |
| PackageCard.Invocable | src/components/PackageCard.tsx:122-229 | a click can start upgrade iff the package is vulnerable and neither upgrading nor committing; commit iff the package is vulnerable or was upgraded, and neither upgrading nor committing; checkout iff its button is shown (non-empty `gitBranch` and `defaultBranch`, and off main/master or behind) and no flag is busy |
| PackageCard.InvocableOnlyWhenNotBusy | src/components/PackageCard.tsx:126-128 | a rendered, enabled button never starts an operation whose flag is set; the checkout button only starts when all three flags are clear; the upgrade and commit buttons (lines 215 and 229) only start when neither upgrading nor committing |
| PackageCard.Card.constructor | src/components/PackageCard.tsx:26-33 | a new card has all three flags clear, `wasUpgraded` false and no message |
| PackageCard.Card.RenderedButton | src/components/PackageCard.tsx:122-229 | the card renders each button from its `packageInfo` prop and its current state: upgrade is shown iff the package is vulnerable; commit iff it is vulnerable or was upgraded; an enabled button never belongs to a running operation; an enabled checkout button means nothing is running |
| PackageCard.Card.StartUpgrade | src/components/PackageCard.tsx:38-40 | sets `isUpgrading`, clears the message, changes nothing else |
| PackageCard.Card.CompleteUpgrade | src/components/PackageCard.tsx:43-54 | the message becomes the upgrade report; `wasUpgraded` is set on success; `isUpgrading` is cleared; the other flags are unchanged |
| PackageCard.Card.StartCommit | src/components/PackageCard.tsx:57-59 | sets `isCommitting`, clears the message, changes nothing else |
| PackageCard.Card.CompleteCommit | src/components/PackageCard.tsx:62-75 | the message becomes the commit report; `isCommitting` is cleared; the other flags and `wasUpgraded` are unchanged |
| PackageCard.Card.StartCheckout | src/components/PackageCard.tsx:78-80 | sets `isCheckingOut`, clears the message, changes nothing else |
| PackageCard.Card.CompleteCheckout | src/components/PackageCard.tsx:83-96 | the message becomes the checkout report; `isCheckingOut` is cleared; the other flags and `wasUpgraded` are unchanged |
| CardTraces.LegalRunsKeepExclusion | src/components/PackageCard.tsx:213-229 | when only rendered, enabled buttons are clicked, `isUpgrading && isCommitting` never holds |
| CardTraces.LegalRunsStartOnlyWhenIdle | src/components/PackageCard.tsx:127-128 | in a legal run, no step starts an operation whose flag is already set, and checkout starts only when nothing is in flight |
| CardTraces.WasUpgradedExactly | src/components/PackageCard.tsx:44-46 | after any run, `wasUpgraded` holds iff it held before or some step in the run was a successful upgrade |
| CardTraces.WasUpgradedMonotone | src/components/PackageCard.tsx:46 | once `wasUpgraded` is set, no run, legal or not, clears it |
| CardTraces.UpgradeCanOverlapCheckout | src/components/PackageCard.tsx:213-215 | a legal run from the initial state can have a checkout and an upgrade in flight together |
| CardTraces.UpgradeScenario | src/components/PackageCard.tsx:38-55 | a successful upgrade of a vulnerable package leaves the card idle, with `wasUpgraded` set and the action's message shown; the commit button stays shown even when the vulnerability flags are cleared |
| CardTraces.CommitFailureScenario | src/components/PackageCard.tsx:57-76 | a failed commit shows the action's error verbatim, leaves the card idle and leaves `wasUpgraded` as it was |
| PackageList.Vulnerable | src/components/PackageListClient.tsx:21 | the filtered list is no longer than the input, and every element of it is vulnerable and occurs in the input |
| PackageList.VulnerablePositions | src/components/PackageListClient.tsx:21 | the positions of the vulnerable packages, strictly increasing; each one is in range and vulnerable, and every vulnerable position is among them |
| PackageList.VulnerableIsOrderedSelection | src/components/PackageListClient.tsx:20-22 | the filtered list is exactly the packages at the vulnerable positions, in increasing order: the order-preserving subsequence of vulnerable packages |
| PackageList.VulnerableCount | src/components/PackageListClient.tsx:16-18 | the count is at most the number of packages; it is 0 iff no package is vulnerable; it equals the number of packages iff every package is vulnerable |
| PackageList.NoneVulnerable | src/components/PackageListClient.tsx:36 | the filtered list is empty iff no package is vulnerable |
| PackageList.AllVulnerable | src/components/PackageListClient.tsx:29 | the filtered list is as long as the input iff every package is vulnerable |
| PackageList.Displayed | src/components/PackageListClient.tsx:20-22 | with the filter off, the displayed list is the input unchanged; with it on, its length is the vulnerable count; either way it is no longer than the input, every element comes from the input, and with the filter on every element is vulnerable |
| PackageList.FilteredCardsOfferUpgrade | src/components/PackageListClient.tsx:66-68 | with the filter on, every card rendered shows the upgrade button, whatever that card's state |
| PackageList.PluralSuffix | src/components/PackageListClient.tsx:28 | the suffix is "s" iff the count is not 1, and empty iff it is 1 |
| PackageList.Title | src/components/PackageListClient.tsx:27-28 | the header is "Found ", the numeral of the package count, " package" and the plural suffix; it reads "Found 1 package" iff there is exactly one package, and otherwise ends in "s" |
| PackageList.ShowingNote | src/components/PackageListClient.tsx:29-33 | "(showing N)" is shown iff the filter is on and some package is not vulnerable; N is then the vulnerable count |
| PackageList.ControlsFor | src/components/PackageListClient.tsx:36-61 | "All secure" is shown iff no package is vulnerable; otherwise the toggle reads "Show All" when the filter is on and "Vulnerable Only" when it is off, shows the FilterX icon and is highlighted iff the filter is on, and the pill reads "N vulnerable" with N the vulnerable count |
| PackageList.FilterOutlivesVulnerablePackages | src/components/PackageListClient.tsx:29-61 | the filter is on and the package list has no vulnerable package left: no card is rendered, the header says "(showing 0)", and there is no toggle to turn the filter off |
| PackageList.FleetView.Shown | src/components/PackageListClient.tsx:66 | the rendered list is the package list when the filter is off; when it is on, it has the vulnerable count as its length and only vulnerable packages; every rendered package comes from the list |
| PackageList.FleetView.constructor | src/components/PackageListClient.tsx:14 | the view starts with the filter off and keeps the packages it was given |
| PackageList.FleetView.Toggle | src/components/PackageListClient.tsx:41 | a click negates `showOnlyVulnerable` |
| PackageList.FleetView.ToggleTwice | src/components/PackageListClient.tsx:41 | two clicks restore the flag and the rendered list |

## Left out

- Rendering is not modelled: JSX, CSS class strings, and the Card, Button and Badge components. Icons are a small enumeration. The card's amber or green border and the success or error colour of the banner are styling only.
- The server actions `upgradePackage`, `commitAndPush` and `checkoutDefaultBranch` are external I/O (git and the package manager) and are not shown. What awaiting one yields is the `Outcome` parameter of `CompleteX`: `Success`, `Failure`, or `Fault` for a thrown exception. It is chosen freely, so every possible result is covered.
- Text.Decimal: writes integer counts the way JavaScript prints them, which holds below 10^21. Larger numbers print in exponent form ("1e+21"), and fractional numbers print with a decimal point. Neither case is modelled. The badge count, the package count and the vulnerable count all use Decimal.
- The construction of `PackageInfo` is not part of this model: version detection and the vulnerability policy. The flags, versions and branch data are given inputs. `commitsBehindDefault` is an optional integer. `None` stands for `null` or `undefined`.
- The display-only fields `reactVersion`, `nextVersion` and `packageManager` are in the record. Their badges (src/components/PackageCard.tsx:156-195) are not modelled, because they take no part in any decision.
- React's re-render and async scheduling are not modelled. A handler's `await` is the gap between `StartX` and `CompleteX`, and a run interleaves such steps. A run lets a completion happen only while its operation's flag is set. A clicked handler that is still in flight after the same operation's flag was cleared by another completion is not tracked; legal runs never produce one.
- Hidden cards are not unmounted when the filter is toggled. In the component, unmounting throws away their state.
- The package list is a prop. Who refreshes it, and when, is outside the component. `FilterOutlivesVulnerablePackages` states what the view shows for any list, whether or not a refresh ever brings the view there.

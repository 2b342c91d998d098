# Follow relationships and model projection, in Dafny

This project models the data classes of a small social-network application
(`app/app/db/models.py`). In the application a follow request is stored
once, as one directed record (`Follower`) from the user who sent it to the
user it was sent to, with an integer status (1 = sent, 2 = accepted). The
code then reads that single record from a viewer's point of view:

* `is_sent`, `is_received` and `is_accepted` decide what the viewer sees;
* `User.get_follower` picks the first record attached to a profile;
* `User.get_info` merges the profile's dictionary with five flags
  (`is_sent`, `is_received`, `is_friend`, `can_send`, `is_current`).

The profile dictionary comes from `Model.as_dict`. It takes the dataclass
fields, drops the class's related (joined) properties unless `with_related`
is set, and passes each value through `_format_value`. That function rebuilds
dicts recursively, renders dates as text and leaves other values unchanged.
`get_properties` lists the same kept names.

The project has four modules:

* `wrappers.dfy` (`Wrappers`) holds `Option`, which stands for Python's
  value-or-`None`.
* `dicts.dfy` (`Dicts`) holds Python values and the part of `dict` semantics
  the code uses. A dict is a sequence of entries in insertion order. The
  type allows a key to repeat; `UniqueKeys` marks the sequences that are
  real dicts, and the model proves that `as_dict` and `get_info` build
  such dicts. The module defines lookup, store (`d[k] = v`: overwrite in
  place or append) and the merge `{**a, **b}`.
* `stamps.dfy` (`Stamps`) holds MySQL dates and datetimes and their
  rendering with the format string of `_format_value`. It has the rendering
  as written and the corrected one, with a parser that reads a rendering
  back.
* `models.dfy` (`Models`) holds:
  * the four model classes, their field lists and their related properties;
  * `as_dict`, `_format_value` and `get_properties`;
  * the `Follower` predicates, `get_follower` and `get_info`.

Some consequences of the code are easy to miss; the model keeps them:

* `can_send` is `not follower` (`models.py:88`). Any attached record blocks
  sending, even a record between two other users, where the viewer is not
  a party.
* A status other than 1 or 2 makes all three predicates false.
* Only a record between two distinct users is never both "sent" and
  "received" for one viewer. A request someone sent to themselves is both.
* Dates are rendered with the format string as written, which prints the
  12-hour hour where the minutes belong (see Findings).

## Model

| member | source | states |
|---|---|---|
| Models.AcceptedExcludesPending | app/app/db/models.py:43-59 | for any record and viewer, `is_accepted` excludes both `is_sent` and `is_received` |
| Models.SentReceivedExclusive | app/app/db/models.py:43-53 | when the two user ids differ, no viewer sees the request as both sent and received |
| Models.SelfRequestSentAndReceived | app/app/db/models.py:43-53 | a pending request from a user to themselves is both sent and received for that user |
| Models.UnknownStatusAllFalse | app/app/db/models.py:35-59 | a status other than `STATUS_SENT` (1) or `STATUS_ACCEPTED` (2) makes all three predicates false |
| Models.OutsiderSeesNothing | app/app/db/models.py:43-59 | a viewer who is neither party sees nothing, whatever the status |
| Models.PendingParties | app/app/db/models.py:43-53 | for a pending request between distinct users, only the sender sees it sent and only the recipient sees it received; nobody sees it accepted |
| Models.AcceptedParties | app/app/db/models.py:55-59 | an accepted request is a friendship for exactly its two parties and pending for nobody |
| Models.GetFollowerFirst | app/app/db/models.py:76-80 | `get_follower` is `None` exactly when `followers` is empty, otherwise it is the first record |
| Models.GetFollowerIgnoresTail | app/app/db/models.py:79 | records after the first never affect `get_follower` |
| Models.User.RelationshipInfo | app/app/db/models.py:83-90 | `can_send` holds exactly when no record is attached; `can_send` excludes the other three relationship flags; `is_friend` excludes sent and received |
| Models.InfoWithoutFollower | app/app/db/models.py:84-90 | with no record, sent, received and friend are false, `can_send` is true and `is_current` is `user_id == id` |
| Models.InfoWithFollower | app/app/db/models.py:85-88 | with a record of any status or parties, `can_send` is false and the other three flags are that record's predicates for the viewer |
| Models.OutsiderRecordBlocksSend | app/app/db/models.py:88 | a record between two other users shows no relationship and still blocks sending |
| Models.IsCurrentIgnoresFollowers | app/app/db/models.py:89 | `is_current` is `user_id == self.id` whatever the attached records |
| Models.InfoFlagsExclusive | app/app/db/models.py:85-88 | when the attached record links distinct users, at most one of sent, received, friend and `can_send` is true |
| Models.InfoEntriesLookup | app/app/db/models.py:84-90 | the flags dict has exactly the five keys, in order and distinct, each holding its own flag |
| Models.GetInfoLookup | app/app/db/models.py:91 | in the merged result the five flag keys take their value from the flags; every other key takes it from `as_dict()` |
| Models.GetInfoHidesFollowers | app/app/db/models.py:91-95 | `followers` is never a key of `get_info` |
| Models.GetInfoProfileField | app/app/db/models.py:91 | under each name of `get_properties()`, `get_info` holds that field's formatted value |
| Models.GetInfoLayout | app/app/db/models.py:91 | `get_info` is the profile dict followed by the five flags; its keys are `get_properties()` followed by the flag names |
| Models.GetInfoUnique | app/app/db/models.py:91 | `get_info` builds a real dict: no key occurs twice |
| Models.GetInfoFlag | app/app/db/models.py:84-91 | under the i-th flag name, `get_info` holds the i-th flag |
| Models.GetInfoCanSend | app/app/db/models.py:88 | `get_info()['can_send']` is true exactly when no record is attached |
| Models.GetInfoIsCurrent | app/app/db/models.py:89 | `get_info()['is_current']` is true exactly when the viewer is the profile's user |
| Models.RelatedProperties | app/app/db/models.py:28-30 | every related property is a declared field: none for `Follower` (inherited at lines 28-30), `followers` for `User` (93-95), `user` for `Post` (106-108), `post` for `Feed` (119-121) |
| Models.Without | app/app/db/models.py:26 | the filter keeps exactly the names not excluded, never adding any |
| Models.WithoutAppend | app/app/db/models.py:26 | filtering a concatenation filters each part in turn, so the kept names stay in their original order |
| Models.WithoutDistinct | app/app/db/models.py:26 | filtering a list without repetitions gives a list without repetitions |
| Models.GetProperties | app/app/db/models.py:24-26 | a name is listed exactly when it is an annotated field and not a related property |
| Models.Fields | app/app/db/models.py:13 | `asdict(self)` has exactly the annotated field names as keys, in declaration order |
| Models.FieldAt | app/app/db/models.py:13 | under each annotated name, `asdict(self)` holds that field's value |
| Models.Project | app/app/db/models.py:13-14 | the comprehension's keys are the field names minus the excluded ones, in order |
| Models.ProjectLookup | app/app/db/models.py:13-14 | an excluded or unknown key is absent; a kept key holds the formatted field value |
| Models.AsDictKeys | app/app/db/models.py:12-26 | `as_dict()` keeps exactly the names `get_properties()` lists, in the same order: both omit exactly the related properties |
| Models.AsDictUnique | app/app/db/models.py:12-14 | `as_dict` builds a real dict: no key occurs twice |
| Models.AsDictWithRelatedKeys | app/app/db/models.py:12-14 | `as_dict(with_related=True)` keeps every annotated field |
| Models.AsDictLookup | app/app/db/models.py:12-14 | each key `as_dict` keeps holds the formatted field value; related keys are absent unless `with_related` |
| Models.AsDictField | app/app/db/models.py:12-14 | under the i-th field name, `as_dict` holds the i-th field value formatted, unless that field is filtered out |
| Models.NestedUserFormatted | app/app/db/models.py:18-19 | with `with_related`, a post's joined user comes out as its field dict with every value formatted |
| Models.NestedUserKeepsFollowers | app/app/db/models.py:18-22 | the nested user dict is not filtered: its `followers` list stays, and being a list it is not formatted |
| Models.FormatValue | app/app/db/models.py:17-22 | the result has no date left outside a list, and it is a dict exactly when the input is |
| Models.FormatEntries | app/app/db/models.py:18-19 | formatting a dict keeps its keys in order, and every value comes out formatted |
| Models.FormatEntriesLookup | app/app/db/models.py:18-19 | under each key the formatted dict holds the formatted original value; other keys stay absent |
| Models.FormatLeavesOthers | app/app/db/models.py:22 | any value that is not a dict or a date, lists included, is returned unchanged |
| Models.FormatRendersDate | app/app/db/models.py:20-21 | a date becomes its text rendering with the format string as written, `%Y-%m-%d %H:%I:%S` |
| Models.FormattedFixed | app/app/db/models.py:17-22 | a value with nothing left to format is a fixed point |
| Models.EntriesFormattedFixed | app/app/db/models.py:18-19 | a dict whose values are all formatted is a fixed point |
| Models.FormatIdempotent | app/app/db/models.py:17-22 | formatting twice gives the same as formatting once |
| Dicts.PutLookup | app/app/db/models.py:91 | storing `k` makes it hold the new value and leaves every other key's value alone; a new key is appended |
| Dicts.MergeLookup | app/app/db/models.py:91 | in `{**a, **b}` the right side wins on each of its keys; other keys come from the left |
| Dicts.MergeKeys | app/app/db/models.py:91 | a merge keeps keys distinct, and its keys are those of either side |
| Dicts.MergeDisjoint | app/app/db/models.py:91 | when no key is shared, the merge is the left entries followed by the right ones |
| Stamps.Hour12 | app/app/db/models.py:21 | `%I` is the hour on a 12-hour clock: 1..12 and equal to the hour modulo 12 |
| Stamps.FormatStampAsWritten | app/app/db/models.py:21 | the format as written renders 19 characters |
| Stamps.AsWrittenLosesMinute | app/app/db/models.py:21 | reading back the rendering as written gives the stamp with its minute replaced by the 12-hour hour |
| Stamps.AsWrittenIgnoresMinute | app/app/db/models.py:21 | the rendering as written does not depend on the minute |
| Stamps.AsWrittenCollision | app/app/db/models.py:21 | 2020-01-02 13:45:10 and 13:00:10 are distinct but both render as "2020-01-02 13:01:10" |
| Stamps.AsWrittenDateOnly | app/app/db/models.py:20-21 | a plain date renders "00:12:00" as its time, where the intended format gives "00:00:00" |
| Stamps.FormatStamp | app/app/db/models.py:21 | the corrected format renders 19 characters |
| Stamps.RenderRoundTrip | app/app/db/models.py:21 | reading a rendering back gives the stamp with the middle time slot as its minute |
| Stamps.FormatStampRoundTrip | app/app/db/models.py:21 | the corrected rendering is well shaped and reads back as the same stamp |
| Stamps.FormatStampInjective | app/app/db/models.py:21 | the corrected rendering tells distinct stamps apart |

## Left out

- The view layer in `monolith/app/follower/views.py` is not modelled: routing, login checks, 404s, templates and JSON responses. The repository and service it calls (`UserRepository`, `FollowerService`) are not part of this model. So the send and accept uniqueness checks and the pagination are not part of it either.
- Viewer ids are `int`. `monolith/app/follower/views.py:24` passes the route's string `user_id` to `get_info`. Python's `==` between that string and an integer id is always false, so there every flag that compares ids comes out false. The model does not capture this.
- The `None` defaults of the dataclass fields are modelled only for the profile attributes. Ids and the status are plain integers.
- The reflection behind `dataclasses.asdict` and `__annotations__` is written out instead. Each class has an explicit field list (`Models.Annotations`), and each instance has its values in that order (`Models.FieldValues`). Values other than `None`, booleans, integers, strings, dates, lists and dicts are not modelled (no copying of arbitrary objects).
- `flask_login.UserMixin` adds nothing that the model uses.
- SQL persistence, the MySQL driver and concurrency are not modelled.
- Dates are limited to years 1000..9999, the MySQL DATE and DATETIME range, so `%Y` always gives four digits. Microseconds and time zones are not modelled; the format does not print them.
- The `Follower` predicates themselves (`Models.Follower.IsSent`, `IsReceived`, `IsAccepted`) and `Models.User.GetFollower`, `Models.User.GetInfo` and `Models.AsDict` are defined directly from the code. Their properties are stated by the lemmas in the table.

## Findings

| source | as written | input that shows it | evidently intended | confidence | as-written member | corrected member |
|---|---|---|---|---|---|---|
| app/app/db/models.py:21 | the format `%Y-%m-%d %H:%I:%S` puts `%I` (the hour on a 12-hour clock) where the minutes belong | the datetime 2020-01-02 13:45:10 renders as "2020-01-02 13:01:10", the same as 13:00:10; a plain date renders with the time "00:12:00" | `%Y-%m-%d %H:%M:%S`, which keeps every field and reads back as the same stamp | high, not executed | Stamps.AsWrittenCollision | Stamps.FormatStampRoundTrip |

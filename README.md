# Profile models of the Sankaku API client, in Dafny

This project models `sankaku/models/users.py`, the user-profile models of the Sankaku Complex API client. There are three nested tiers:

- `BaseUser`, with `Author` declaring nothing of its own;
- `User`, which adds the account fields and reads `avatar` from the JSON key `avatar_url`;
- `ExtendedUser`, which adds thirteen required fields and flattens the `blacklisted_tags` groups before checking them.

Each tier is a list of field descriptors. A descriptor has a canonical name, a wire key, a kind, a default and an optional hook. Every tier extends its parent's list.

Decoding a JSON object against a tier works field by field, in declaration order:

1. Read the value under the wire key.
2. If the key is absent, use the field's default, or record `Missing` when it has none. The hook does not run.
3. Otherwise apply the hook, if the field has one.
4. Then coerce the value to the field's kind.

All field errors are collected. The result is either the full record, a map from canonical name to typed value, or the non-empty list of errors.

Modules, one file each:

- `Wrappers` (`wrappers.dfy`): the `Result` type.
- `Json` (`json.dfy`): JSON values.
- `Tags` (`tags.dfy`): the `flatten_blacklisted_tags` validator. It is modelled on well-shaped input as `Flatten`, and on any JSON value with Python's `tag[0]` and iteration semantics as `FlattenHook`.
- `Fields` (`fields.dfy`): descriptors, typed values, defaults and coercion.
- `Decoding` (`decoding.dfy`): the decoding engine and its general properties.
- `Users` (`users.dfy`): the concrete tiers and their well-formedness.
- `UserDecoding` (`user_decoding.dfy`): what decoding each tier promises.

Three modelling decisions:

- **Timestamps and rating tokens.** Their validity is decided outside the modelled file. They are the two predicates of `Fields.Formats`, and every decode takes them as a parameter.
- **The `avatar` override keeps the parent's position.** pydantic keeps an overridden field where the parent declared it, so `User` lists `avatar` third, as `BaseUser` does.
- **Inherited fields are checked again.** Every field of a tier is validated, including inherited ones, because each model class validates its whole field set.

## Model

| member | source | states |
|---|---|---|
| Tags.Flatten | sankaku/models/users.py:81-84 | Requires every group to be non-empty. The output has one tag per group, and tag i is the first element of group i. |
| Tags.FlattenAppend | sankaku/models/users.py:84 | Flattening keeps the order of the groups: flattening `a + b` gives the flattening of `a` followed by that of `b`. |
| Tags.FlattenSingletons | sankaku/models/users.py:84 | Flattening the one-tag groups of a tag list gives that tag list back. |
| Tags.First | sankaku/models/users.py:84 | `tag[0]` succeeds exactly on a non-empty list or string. On a list it yields the first element, and on a string the one-character string of its first character. An empty list or string is an IndexError, an object a KeyError, and null, a bool or a number a TypeError, each attributed to the group's index. |
| Tags.Elements | sankaku/models/users.py:84 | `for tag in v` works exactly on a list or a string. A list yields its items. A string yields one element per character, element i being the one-character string of character i. Anything else is not iterable. |
| Tags.FirstOfEach | sankaku/models/users.py:84 | The comprehension succeeds exactly when `tag[0]` succeeds on every element. It then has one result per element. Otherwise it fails with the error of the first element that fails. |
| Tags.FlattenHook | sankaku/models/users.py:81-84 | The validator always returns a list. On a JSON list it is the comprehension over its items. On a string it succeeds with the list of its characters. On a value that is neither a list nor a string it fails as not iterable. |
| Tags.Initials | sankaku/models/users.py:84 | Each tag is replaced by the one-character string of its first character, in order. |
| Tags.HookOnFlatTags | sankaku/models/users.py:81-84 | On a flat list of tags, the validator succeeds exactly when no tag is empty, and then keeps only the first character of each tag. When it fails, it names an empty tag. |
| Tags.HookIsFlatten | sankaku/models/users.py:81-84 | On a list of string lists, the validator succeeds exactly when every group is non-empty, and then returns `Flatten` of the groups. When it fails, it names an empty group. |
| Fields.Absent | sankaku/models/users.py:46-62 | An absent field with no default is `Missing`. `Optional[...] = None` gives None and `List[str] = []` gives the empty list. |
| Fields.AllStrs | sankaku/models/users.py:55 | A JSON array is a `List[str]` exactly when every item is a string. Its strings then give back the array. |
| Fields.Coerce | sankaku/models/users.py:15-18 | null is accepted exactly for an Optional field. An accepted value has the field's kind and the input is its wire form. A malformed timestamp is a format error and an unknown rating token is an unknown-enum error. Every other failure, including a value of the wrong JSON kind and null for a field that is not Optional, is a type mismatch carrying the expected kind and the value received. |
| Fields.CoerceExact | sankaku/models/users.py:29-55 | Coercion accepts a JSON value and yields `v` exactly when the JSON is the wire form of `v` and `v` has the field's kind (or `v` is None for an Optional field). |
| Fields.Transform | sankaku/models/users.py:81-84 | A field without a hook is passed through unchanged. `blacklisted_tags` gets the validator's result, and a validator failure becomes a transform failure. |
| Decoding.Resolve | sankaku/models/users.py:15-18 | An absent key gives the field's default or `Missing`. A present key never gives `Missing`. A resolved value fits the field. Without a hook, the JSON is the value's wire form. |
| Decoding.Errors | sankaku/models/users.py:25-79 | No error is reported exactly when every declared field resolves. |
| Decoding.ErrorsHasEach | sankaku/models/users.py:25-79 | Validation does not stop early: every failing field's error is reported. |
| Decoding.ErrorsOnlyFrom | sankaku/models/users.py:25-79 | Every reported error is the error of a declared field that fails. |
| Decoding.Build | sankaku/models/users.py:25-79 | The record holds exactly the declared canonical names, each with its resolved value. |
| Decoding.Decode | sankaku/models/users.py:13-79 | Decoding succeeds exactly when every field resolves. The record holds exactly the declared names with their resolved values. On failure the error list is non-empty and equals the collected errors. |
| Decoding.FieldFails | sankaku/models/users.py:25-79 | One field that does not resolve makes the whole decode fail, and its error is among those reported. |
| Decoding.FieldSucceeds | sankaku/models/users.py:25-79 | A field that resolves is named by no error, and a successful decode holds its value. |
| Decoding.DecodedField | sankaku/models/users.py:25-79 | After a successful decode, every field resolved and the record holds its value under its canonical name. |
| Decoding.DecodedString | sankaku/models/users.py:16-17 | After a successful decode, a required `str` field's key is present with a string, and the record holds that string. |
| Decoding.MissingRequiredFails | sankaku/models/users.py:29-44 | A field without a default whose key is absent makes decoding fail with `Missing` naming that field. |
| Decoding.AbsentIsDefaulted | sankaku/models/users.py:46-62 | A defaulted field whose key is absent is named by no error, and a successful decode holds its default. |
| Decoding.FlattenedField | sankaku/models/users.py:77-84 | For a hooked list field given groups of tags: with all groups non-empty, the record holds the flattened tags. With an empty group, decoding fails with a transform error naming that group. |
| Decoding.FlatTagsField | sankaku/models/users.py:77-84 | For the same field given the flat wire form of a tag list: with no empty tag, the record holds only the first character of each tag. With an empty tag, decoding fails with a transform error naming it. |
| Decoding.RemoveDefaulted | sankaku/models/users.py:46-62 | Removing a defaulted field's key from a payload that decodes still decodes, to the same record with that field at its default. |
| Decoding.ErrorsAppend | sankaku/models/users.py:65 | A subclass's errors are the parent's errors followed by those of the fields it adds. |
| Decoding.DecodeAppend | sankaku/models/users.py:65 | An extended tier decodes exactly when the parent tier and the added fields both decode. Its record is their union, and its errors are theirs in order. |
| Decoding.ExtensionErrors | sankaku/models/users.py:65-79 | On a payload valid for the parent tier, the extended tier fails exactly when its added fields do, and with exactly their errors. |
| Decoding.Encode | sankaku/models/users.py:25-79 | The source has no encoder. This is the inverse, defined only on the model's side and used only by the round trips. The payload built from a record has exactly the tier's wire keys, each holding its field's wire form, with a hooked list sent as one-tag groups. |
| Decoding.RoundTrip | sankaku/models/users.py:25-84 | Decoding the payload built from any record that fits a tier gives that record back. |
| Users.BaseFacts | sankaku/models/users.py:13-18 | BaseUser (and so Author) declares `id`, `name`, `avatar` and `avatar_rating` in that order, each read under its own name. Its part of User reads them from `id`, `name`, `avatar_url` and `avatar_rating`. |
| Users.BaseTypes | sankaku/models/users.py:13-18 | BaseUser's fields are an int, two strs and a Rating. All four are required and have no validator, in BaseUser and in User. |
| Users.AlwaysFacts | sankaku/models/users.py:29-44 | User declares its fifteen always-present fields, `level` … `artist_update_count`, in order, each read under its own name. |
| Users.AlwaysPresence | sankaku/models/users.py:29-44 | All fifteen always-present fields are required. |
| Users.AlwaysTypes | sankaku/models/users.py:29-44 | `created_at` is a datetime, `favs_are_private` a bool, and the other thirteen are ints. None of them has a validator. |
| Users.MaybeFacts | sankaku/models/users.py:46-55 | User declares `last_logged_in_at` … `recommended_posts_for_user` and `subscriptions`, in order, each read under its own name. |
| Users.MaybePresence | sankaku/models/users.py:46-55 | The first eight default to None. `subscriptions` is a str list that defaults to the empty list. |
| Users.MaybeTypes | sankaku/models/users.py:46-55 | `last_logged_in_at` is a datetime, the next seven are ints and `subscriptions` is a str list. None of them has a validator. |
| Users.RemovedFacts | sankaku/models/users.py:57-62 | User still declares the four removed fields `show_popup_version`, `credits`, `credits_subs` and `is_ai_beta`, each read under its own name. |
| Users.RemovedPresence | sankaku/models/users.py:57-62 | All four removed fields default to None. |
| Users.RemovedTypes | sankaku/models/users.py:57-62 | The removed fields are three ints and a bool, none with a validator. |
| Users.OwnFacts | sankaku/models/users.py:67-79 | ExtendedUser adds `email` … `mfa_method`, thirteen fields in order, each read under its own name. |
| Users.OwnPresence | sankaku/models/users.py:67-79 | All thirteen added fields are required. `blacklisted_tags` is the field with the flattening validator. |
| Users.OwnTypes | sankaku/models/users.py:67-84 | The added fields are typed as declared: strs, bools, ints, and the two str lists `blacklisted_tags` and `blacklisted`. Only `blacklisted_tags` has a validator. |
| Users.UserLayout | sankaku/models/users.py:25-79 | User is BaseUser's four fields, with `avatar` aliased, followed by the always-present, the optional and the removed groups: 32 fields. ExtendedUser is User followed by its thirteen own fields: 45. |
| Users.WithKey | sankaku/models/users.py:33 | Overriding a field's wire key keeps every field in place and changes only the key of the named field. |
| Users.BaseUserWellFormed | sankaku/models/users.py:13-22 | No two fields of BaseUser (and Author) share a canonical name or a wire key. |
| Users.UserWellFormed | sankaku/models/users.py:25-62 | No two of User's 32 fields share a canonical name or a wire key. |
| Users.ExtendedUserWellFormed | sankaku/models/users.py:65-79 | ExtendedUser's 13 own fields are distinct from each other and from all of User's, so its 45 fields are distinct. |
| UserDecoding.AuthorIsBaseUser | sankaku/models/users.py:13-22 | A payload decodes as Author exactly when it decodes as BaseUser, with the same record or the same errors. |
| UserDecoding.BaseUserDecodes | sankaku/models/users.py:13-18 | BaseUser decodes exactly when `id` is an integer, `name` and `avatar` are strings and `avatar_rating` is a known rating token. The record is exactly those four values. |
| UserDecoding.UnknownRatingFails | sankaku/models/users.py:18 | An unknown `avatar_rating` token makes BaseUser, User and ExtendedUser fail with an unknown-enum error, whatever the other fields hold. |
| UserDecoding.UserMissingRequired | sankaku/models/users.py:29-44 | A payload lacking `id`, `name`, `avatar_rating` or any of `level` … `artist_update_count` fails as User and as ExtendedUser with `Missing` naming that field. |
| UserDecoding.UserMissingAvatarUrl | sankaku/models/users.py:33 | A payload without `avatar_url` fails as User and as ExtendedUser with `Missing` naming `avatar`. |
| UserDecoding.UserAvatarFromUrl | sankaku/models/users.py:33 | A decoded User was given a string under `avatar_url`, and that string is its `avatar`. |
| UserDecoding.ExtendedUserAvatarFromUrl | sankaku/models/users.py:33 | A decoded ExtendedUser was given a string under `avatar_url`, and that string is its `avatar`. |
| UserDecoding.BaseUserAvatarFromAvatar | sankaku/models/users.py:17 | A decoded BaseUser (or Author) was given a string under `avatar`, and that string is its `avatar`. |
| UserDecoding.UserAbsentOptional | sankaku/models/users.py:46-62 | An absent optional or removed field (`last_logged_in_at` … `recommended_posts_for_user`, `show_popup_version`, `credits`, `credits_subs`, `is_ai_beta`) is never an error in User or ExtendedUser, and is None in a decoded record of either. |
| UserDecoding.UserAbsentSubscriptions | sankaku/models/users.py:55 | An absent `subscriptions` is never an error in User, and is the empty list in a decoded User. |
| UserDecoding.ExtendedUserAbsentSubscriptions | sankaku/models/users.py:55 | An absent `subscriptions` is never an error in ExtendedUser, and is the empty list in a decoded ExtendedUser. |
| UserDecoding.UserOptionalNeverRequired | sankaku/models/users.py:46-62 | Dropping an optional or removed key from a payload that decodes as User still decodes, to the same record with that field None. |
| UserDecoding.ExtendedUserExtendsUser | sankaku/models/users.py:65-79 | ExtendedUser decodes exactly when the payload decodes as User and its own 13 fields decode. Its record is the User record plus those fields, so the removed fields are kept. |
| UserDecoding.ExtendedUserMissingOwn | sankaku/models/users.py:67-79 | A payload lacking any of ExtendedUser's own fields fails with `Missing` naming that field. |
| UserDecoding.ExtendedUserOverValidUser | sankaku/models/users.py:65-79 | On a valid User payload, ExtendedUser fails exactly when its own fields do, and its errors are exactly theirs. |
| UserDecoding.ValidUserWithoutEmail | sankaku/models/users.py:65-67 | A valid User payload without `email` fails as ExtendedUser with `Missing` naming `email`, and its errors are only those of ExtendedUser's own fields. |
| UserDecoding.ExtendedUserFlattensTags | sankaku/models/users.py:77-84 | If every blacklist group has a tag, `blacklisted_tags` is named by no error and decodes to the first tag of each group. If some group is empty, ExtendedUser fails with a transform error naming an empty group. |
| UserDecoding.ExtendedUserTruncatesFlatTags | sankaku/models/users.py:77-84 | A blacklist sent flat, as the wire form of a decoded list, is not read back as sent. With no empty tag, `blacklisted_tags` decodes to the first character of each tag. With an empty tag, ExtendedUser fails with a transform error naming it. |
| UserDecoding.UserRoundTrip | sankaku/models/users.py:25-62 | Every record that fits User is decoded back from its payload. |
| UserDecoding.ExtendedUserRoundTrip | sankaku/models/users.py:65-84 | Every record that fits ExtendedUser is decoded back from its payload, with the blacklist sent as one-tag groups. |

## Left out

- Lax coercion is not modelled. pydantic would also turn `"5"` into `5`, accept numbers for booleans and timestamps, and truncate floats. The model accepts a value only when its JSON kind matches the field's kind.
- `sankaku/models/base.py` is not part of this model, so the configuration it sets is not either: extra keys, filling a field under its canonical name instead of its alias, and frozen records. Decoding ignores keys a tier does not declare, which is pydantic's default, and reads an aliased field only under its alias. `UserDecoding.BaseUserDecodes`, `UserDecoding.UserMissingAvatarUrl`, `UserDecoding.UserAvatarFromUrl`, `UserDecoding.ExtendedUserAvatarFromUrl` and `UserDecoding.ExtendedUserExtendsUser` hold under that policy. A configuration in `base.py` that forbids extra keys or fills `avatar` from a plain `avatar` key would change them. A conflicting `avatar`/`avatar_url` pair is decided by the same policy: only `avatar_url` is read.
- The datetime parser and the `sankaku.types.Rating` token set are not part of this model. They enter only as the two validity predicates of `Fields.Formats`.
- Tags.FlattenHook: in Python, an empty group or a JSON object as a group raises `IndexError` or `KeyError` inside the validator. pydantic does not turn those into validation errors, so they may escape the decode as exceptions. The model reports them as a transform failure, aggregated with the other field errors.
- Tags.Elements: Python also iterates a JSON object as the blacklist, by its keys in payload order. A `map` has no order, so the model rejects a top-level object as not iterable.
- Fresh default lists per record, and sharing between records, cannot be observed in a value model: every decoded record is a value.
- Exact error messages and pydantic's error-location format are not modelled. An error is the field's canonical name with a reason.
- HTTP fetching, pagination, authentication and the client code are I/O outside this file.

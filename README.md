# GrpcKind external-client adapter

This project models the external client of the `GrpcKind` controller in provider-grpc, a Crossplane provider. The
Crossplane managed reconciler calls the client's `Observe`, `Create`, `Update` and `Delete` methods. The client
answers them by calling a remote list service over gRPC. Every call to that service is an input here: each method
takes the call's reply as a parameter. A reply is a pair of an optional error and an optional response, as the Go
code receives it. Each method also returns the request it sends, so the contracts can say what is asked of the
remote.

- `Strings` models Go's `strings.Contains`, which the adapter uses to recognise a "does not exist" error. It proves
  that the recursive search agrees with "the phrase occurs at some index".
- `Types` holds the resource record. `GrpcKind` is a class because the adapter updates it in place. Its fields are
  the desired parameters (`Spec.ForProvider`: name, optional description, item list), the observation
  (`Status.AtProvider.Status`) and the Ready condition.
- `ListService` holds the service's request and response messages and the `Reply` pair.
- `Grpckind` holds the adapter itself:
  - `Observe` is a method whose result is `Classify`, a pure three-way verdict (absent, present but stale, present
    and current), turned into Crossplane's `ResourceExists` and `ResourceUpToDate` flags.
  - `Create` is imperative. It blanks the description and records the returned status.
  - `Update` and `Delete` change nothing locally.

Points where the Go code has behaviour worth knowing, all modelled as written:

- **Nil slices.** Item lists are compared with `reflect.DeepEqual`, which tells a nil slice apart from an empty
  non-nil one. The model keeps the difference (`Slice = Nil | NonNil(elems)`). `EmptyDesiredAgainstNilIsStale`
  shows the consequence: a resource that asks for an explicit empty list is reported stale on every cycle when the
  remote answers with nil items.
- **Nil dereference in `Create`.** `Create` reads the response's status on the "does not exist" error path
  (grpckind.go:237). A generated gRPC client returns no response with an error, so that path always dereferences
  nil. The model gives this an explicit `Panicked` outcome; see `CreateStepUnderGeneratedClient`.
- **Nil dereference in `Delete`.** `Delete` reads the status of a nil response when the reply has neither an error
  nor a response (grpckind.go:290). That is also `Panicked`.
- **Swallowed errors.** A lookup error that does not contain "does not exist" is never reported by `Observe`
  (`ObserveSwallowsLookupError`). Any `Create` error without that phrase is swallowed too.

## Model

| member | source | states |
|---|---|---|
| `Strings.ContainsIffOccurs` | internal/controller/grpckind/grpckind.go:166 | the substring search used to classify errors answers true exactly when the phrase occurs at some index of the message |
| `Strings.ContainsInContext` | internal/controller/grpckind/grpckind.go:166 | a phrase found in a message is still found after any prefix and suffix are added to the message |
| `Grpckind.DeepEqualIsIdentity` | internal/controller/grpckind/grpckind.go:183 | the reflect-style comparison of item lists (nil-ness, length, elements in order) holds exactly when the two slices are identical values; order matters and nil differs from empty |
| `Grpckind.Classify` | internal/controller/grpckind/grpckind.go:165-205 | the verdict is Absent iff the lookup error contains "does not exist"; otherwise Stale iff a response came back whose items differ from the desired items; a missing response without a not-found error gives Current |
| `Grpckind.ObservationOf` | internal/controller/grpckind/grpckind.go:166-205 | the observation says the resource exists iff the verdict is not Absent and is up to date iff the verdict is not Stale, always with empty non-nil connection details |
| `Grpckind.ActionFollowsVerdict` | internal/controller/grpckind/grpckind.go:192-200 | from the reported flags, the reconciler creates an absent list, updates a stale one and does nothing for a current one |
| `Grpckind.Observe` | internal/controller/grpckind/grpckind.go:152-206 | a wrong resource kind gives the zero observation and the not-a-GrpcKind error and changes nothing; otherwise the method looks the list up by name, returns `ObservationOf(Classify(..))` with no error, sets Ready to Available exactly when the list was not reported missing and a response with status SUCCESS came back, and otherwise leaves Ready untouched, and leaves spec and status unchanged |
| `Grpckind.ObserveNotFoundInContext` | internal/controller/grpckind/grpckind.go:165-173 | a lookup error whose message contains "does not exist" anywhere gives Absent, whatever response came with it |
| `Grpckind.ObserveSwallowsLookupError` | internal/controller/grpckind/grpckind.go:165-205 | with a generated client, a lookup error without "does not exist" yields exists and up to date, no Available condition, and no error surfaced |
| `Grpckind.EmptyDesiredAgainstNilIsStale` | internal/controller/grpckind/grpckind.go:183-189 | a desired explicit empty list against nil remote items is Stale, although both hold no items |
| `Grpckind.ObserveAfterUpdateIsCurrent` | internal/controller/grpckind/grpckind.go:183-205 | once the remote reports exactly the item list that Update sends, with no error, Observe reports the list current |
| `Grpckind.BlankDescription` | internal/controller/grpckind/grpckind.go:216-220 | a present description becomes the empty string; an absent one stays absent |
| `Grpckind.CreateStepOf` | internal/controller/grpckind/grpckind.go:227-237 | an error without "does not exist" is swallowed; otherwise a present response's status is recorded, and a nil response is dereferenced |
| `Grpckind.CreateStepUnderGeneratedClient` | internal/controller/grpckind/grpckind.go:227-237 | with a generated client, Create records a status iff the call succeeded, panics iff the error contains "does not exist", and swallows every other error |
| `Grpckind.Create` | internal/controller/grpckind/grpckind.go:208-244 | a wrong kind gives the not-a-GrpcKind error and changes nothing; otherwise the request carries the spec's name and description "", the description is blanked, Ready is untouched, the status becomes the response's status only in the Recorded case, the result is never a remote error, and the nil-response case panics |
| `Grpckind.Update` | internal/controller/grpckind/grpckind.go:246-272 | a wrong kind gives the not-a-GrpcKind error; otherwise the request carries the spec's name and its complete, unmodified item list, and the returned error is the remote error unchanged (none if none); nothing is modified |
| `Grpckind.Delete` | internal/controller/grpckind/grpckind.go:274-293 | a wrong kind gives the not-a-GrpcKind error; otherwise only the name is sent, a remote error is returned unchanged, success returns no error, and a reply with neither error nor response panics |
| `Types.GrpcKind.constructor` | apis/mygroup/v1alpha1/grpckind_types.go:29-52 | a resource record holds the given parameters, an empty observed status and no Ready condition |

## Left out

- Controller setup, the connector (ProviderConfig lookup, usage tracking, credentials) and the gRPC dial are not part of this model. They are framework wiring and network I/O.
- The remote list service's behaviour is not modelled. Every reply is an arbitrary input. The response item type is taken to be the same int32 list as the desired items.
- Logging and the `context` values passed to the remote calls are left out. Nothing in them affects a result.
- Crossplane's condition machinery is reduced to the Ready condition's reason. `SetConditions(Available())` becomes setting that field. Other condition types and transition timestamps are left out.
- Connection details are reduced to "nil" or "empty map", the only two values the adapter produces.
- Create: the description is an `Option<string>` inside the record. Writing `""` through a pointer that other objects might share is not modelled.
- Go's errors are reduced to their message. Returning the remote error "unchanged" is modelled as returning the same value.

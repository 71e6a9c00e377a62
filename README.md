# Storefront catalog provider, featured selection and contact handler

A Dafny model of the three pieces of logic in a small storefront (Áurea Virtual Shop):

- **The catalog state provider** (`ProductContext`, in `product_context.dfy`). This is a React context holding three pieces of state: `products`, `loading` and `error`. It is modelled as the class `ProductProvider` with those three fields. `fetchProducts` becomes `FetchProducts(outcome)`, where `outcome` is the abstract answer of the catalog service: `Success(data)` or `Failure(cause)`. The method is split at its `await` into `BeginFetch` (sets `loading`) and `CompleteFetch` (applies the outcome and clears `loading`), so the state a reader sees while the call is pending is part of the model. A ghost history `completed` records the outcomes of finished fetches. The invariant `Valid()` ties `products` and `error` to two reference functions of that history: `LatestData` and `LatestError`. `useProducts` becomes `UseProducts`, over an optional context value.
- **The home page's featured selection** (`Home`, in `home.dfy`). `products.filter(p => p.featured).slice(0, 6)` becomes `FeaturedProducts`, built from `FilterFeatured` and `Take`. The spinner-or-cards choice becomes `FeaturedSectionView`.
- **The contact endpoint** (`Contact`, in `contact_controller.dfy`). `sendContactMessage` becomes the method `SendContactMessage(form, sender, send)`. It takes the form fields, the configured mailbox address and the abstract outcome of the transport. It returns the HTTP response, plus `outbox`: the mail composed for a complete form (`None` when validation rejected the form). Required fields are checked with JavaScript truthiness: a field is truthy when it is present and not the empty string. The message body reproduces the template verbatim, including its leading newline and trailing four-space indentation.

Facts about the code that shape the model:

- The provider starts with `loading = true`; there is no separate idle status.
- Refreshes carry no sequence number, so the fetch that completes last wins.
- The provider's `getProductsByCategory` neither filters the snapshot nor reaches the service. The call at `frontend/src/context/ProductContext.jsx:39` names the local function itself, because the local constant shadows the service import of line 2. The model therefore treats the inner lookup's result as opaque and states only the catch-to-`[]` contract.

## Model

| member | source | states |
|---|---|---|
| `ProductContext.ProductProvider.constructor` | frontend/src/context/ProductContext.jsx:15-17 | A new provider has no products, is loading, has no error, and has completed no fetch |
| `ProductContext.ProductProvider.BeginFetch` | frontend/src/context/ProductContext.jsx:25 | At the start of a fetch `loading` becomes true; the list and the error are untouched |
| `ProductContext.ProductProvider.CompleteFetch` | frontend/src/context/ProductContext.jsx:26-34 | After the await, a success replaces the whole list with the fetched data and clears the error. A failure of any cause keeps the old list and records exactly `Error al cargar los productos`. `loading` is false either way, and the invariant tying the state to the history is kept |
| `ProductContext.ProductProvider.FetchProducts` | frontend/src/context/ProductContext.jsx:23-35 | A whole fetch: wholesale replacement on success, preserved list plus fixed error text on failure, `loading` false at the end, invariant kept |
| `ProductContext.ProductProvider.GetProductsByCategory` | frontend/src/context/ProductContext.jsx:37-45 | A failing lookup yields the empty list and is never propagated; a successful lookup yields its data. The member is a function without a reads clause, so it cannot change `products`, `loading` or `error` |
| `ProductContext.LatestData` | frontend/src/context/ProductContext.jsx:15-31 | The list shown after a history of fetches is either empty or exactly the data of one successful fetch in that history |
| `ProductContext.LatestError` | frontend/src/context/ProductContext.jsx:17-30 | The error is set exactly when the most recent fetch failed, and then it is the fixed message |
| `ProductContext.LatestDataIsLastSuccess` | frontend/src/context/ProductContext.jsx:26-31 | The list shown is the data of the last successful fetch, whatever failures came after it |
| `ProductContext.LatestDataEmptyWithoutSuccess` | frontend/src/context/ProductContext.jsx:15-31 | While no fetch has succeeded, the list is the initial empty one |
| `ProductContext.UseProducts` | frontend/src/context/ProductContext.jsx:6-12 | Succeeds exactly when a provider's context is present, and then returns that context. Otherwise it fails with the fixed message |
| `Home.FilterFeatured` | frontend/src/pages/Home.jsx:9 | Every kept product is featured, every featured product of the input is kept, and the result is no longer than the input |
| `Home.Take` | frontend/src/pages/Home.jsx:9 | `slice(0, n)`: a prefix of the input of length n, or the whole input when it is shorter |
| `Home.FeaturedProducts` | frontend/src/pages/Home.jsx:9 | At most 6 products, all featured, forming a prefix of the filtered list. It is the whole filtered list when at most 6 products are featured, and exactly 6 products otherwise |
| `Home.FilterFeaturedConcat` | frontend/src/pages/Home.jsx:9 | Filtering works element by element: filtering a concatenation concatenates the filtered parts |
| `Home.FilterFeaturedIsSubsequence` | frontend/src/pages/Home.jsx:9 | The filtered list is a subsequence of the catalog, in catalog order |
| `Home.FeaturedIsSubsequence` | frontend/src/pages/Home.jsx:9 | The featured selection is a subsequence of the catalog, in catalog order |
| `Home.FeaturedSectionView` | frontend/src/pages/Home.jsx:58-68 | While loading: a spinner and no product cards. Otherwise: one card per product of the featured selection, in order |
| `Contact.Truthy` | backend/src/controllers/contact.controller.js:10 | JavaScript falsiness of a string field: falsy exactly when it is absent (`undefined`/`null`) or the empty string |
| `Contact.IsComplete` | backend/src/controllers/contact.controller.js:10 | The required-field check holds exactly when `nombre`, `email`, `asunto` and `mensaje` are all present and non-empty; `telefono` is not consulted |
| `Contact.PhoneShown` | backend/src/controllers/contact.controller.js:28 | A truthy `telefono` is shown as given; a missing or empty one is shown as `No proporcionado` |
| `Contact.MessageBody` | backend/src/controllers/contact.controller.js:23-33 | The `mensajeCompleto` literal reproduced verbatim, with its leading newline and trailing four-space indentation. Its contract states that it opens with the newline, the heading and a blank line, and ends with the `Mensaje:` line, the message and the indentation |
| `Contact.ComposeMail` | backend/src/controllers/contact.controller.js:36-42 | The envelope of a complete form: `from` and `to` are the configured address, `replyTo` is the submitted email, the subject is `Nuevo mensaje de contacto: ` followed by `asunto`, and the text is the template body |
| `Contact.BodyListsFieldsInOrder` | backend/src/controllers/contact.controller.js:23-33 | The body holds the heading, then the lines for Nombre, Email, Teléfono, Asunto and Mensaje, in that order and without overlap. Only the trailing indentation follows the message |
| `Contact.SendContactMessage` | backend/src/controllers/contact.controller.js:6-49 | If `nombre`, `email`, `asunto` or `mensaje` is falsy: 400 with the validation message, and no mail is composed or sent. `telefono` plays no part in this check. Otherwise the mail goes from and to the configured address, with replyTo the submitted email, subject `Nuevo mensaje de contacto: ` followed by `asunto`, and the template body. A successful send answers 200 with the success message; a failed send answers 500 with the failure message and the transport's error text |

## Left out

- Network calls to the catalog service (`getAllProducts`, and whatever the inner lookup of `getProductsByCategory` does): each is replaced by an abstract `FetchOutcome`. The service module is not part of this model.
- The self-call at `frontend/src/context/ProductContext.jsx:39`: as written, the inner call re-enters the provider's own `getProductsByCategory` instead of the service. The recursion ends in a stack overflow. Each level makes its call inside its own `try` and awaits it there, so the `RangeError` is caught, logged, and turned into `[]`. The outermost call therefore resolves to `[]` and never returns service data: in the code as written, the `Success` case of the `lookup` parameter does not arise. The model does not model the recursion. It treats the inner result as an opaque outcome, so it also covers a lookup that reaches the service.
- Async scheduling. `BeginFetch` and `CompleteFetch` are separate public methods, so overlapping fetches can be expressed as interleavings such as `BeginFetch; BeginFetch; CompleteFetch(a); CompleteFetch(b)`. Then `loading` becomes false after the first completion and the later completion wins, as in the code, which has no request tagging or cancellation. `FetchProducts` itself runs both halves back to back. Which interleavings the JavaScript event loop actually produces is not modelled.
- The `useEffect` mount trigger, React re-rendering, and all `console.error` logging.
- JSX rendering, CSS, `Link`, `CategoryCard`, `ProductCard` and the static marketing text of the home page.
- Product records carry only `id`, `name`, `category` and `featured`; other fields pass through unread. `featured` is a boolean, so JavaScript truthiness of non-boolean values is not modelled.
- Contact form fields are absent or strings. Truthiness of non-string JSON values (numbers, booleans) is not modelled.
- A missing request body, which makes the destructuring throw and yields a 500 with an engine-defined message, is not modelled.
- nodemailer transport creation, the `process.env` credentials and actual delivery. The sender address is a string parameter (an unset variable is not modelled), and the transport's result is an abstract `SendOutcome` that also covers a failure to create the transport. In that case the code throws before composing the mail, while the model still returns the composed mail as `outbox`: `outbox` is the mail composed for a complete form, not proof that `sendMail` was called.

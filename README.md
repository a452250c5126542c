# Manú Lanches: cart transforms and route decisions, in Dafny

This project models the two pieces of the snack-bar ordering platform that hold its logic.

- **The customer app's cart** (`lanchonete-app/src/App.js`). The cart is a list of lines; each line is a copy of a menu item plus a `quantidade`. The line transforms are pure functions in module `ClientCart`: add, increase, decrease-and-filter, remove, the total and the item count. They are proved to keep the invariant "one line per item, every quantity at least one". Each one has an exact point-update or removal lemma and an exact effect on the two sums. The component state that the handlers update through their setters is class `Storefront.App`: `carrinho`, `mostraCarrinho`, `mostraCheckout`, `pedidoFinalizado`, `ultimoPedido`. Its methods state the new state as a function of the old one.
- **The server's route handlers** (`server.js`). Class `Server.Backend` holds the three tables as maps: `pedidos_lanche` and `cardapio` are keyed by their identity column, `usuarios` by user name. Each handler is a method that returns the HTTP status code and, where the route answers one, the row.
  - A new order always starts in `"Em preparação"`.
  - A status update changes only `status`, accepts any string and answers 404 without any change when the id has no row.
  - Deletion answers 204 whether or not the row existed, and 500 on a database error.
  - Listings come back by strictly descending id for orders and ascending id for the menu.
  - Registration answers 400 for a missing field and 409 for a taken name.
  - Login answers 401 for an unknown name or a password that does not match.

Prices and totals are integer cents. Whether a database call reports an error is a boolean parameter of the handler (`erro`, `erroConsulta`, `erroInsercao`): an error answers 500 and changes nothing. The password hash computed at registration is a parameter, because bcrypt salts it at random. The password check at login is a function parameter `confere`.

The server does not check an order's total against its items, does not require a non-empty item list, and has no cart store, notification step or status state machine; the model follows `server.js`. Any string is accepted as a status. The request's `data` timestamp is not stored.

One detail of `adicionarAoCarrinho` shows up in the lemmas. When the item is already in the cart, the existing line is bumped and keeps the snapshot it was created with. So the total grows by the price stored in that line (`cart[j].item.preco`), which differs from the item's current menu price if the menu changed in between.

## Model

| member | source | states |
|---|---|---|
| `ClientCart.Find` | lanchonete-app/src/App.js:47-48 | finds a line exactly when some line carries the id, and what it finds is a line of the cart with that id |
| `ClientCart.Filter` | lanchonete-app/src/App.js:71-75 | the result keeps exactly the lines of the input that pass the callback, is no longer than the input, and every line in it passes |
| `ClientCart.FilterConcat` | lanchonete-app/src/App.js:85-86 | filtering a concatenation is the concatenation of the filters, so the kept lines stay in their original relative order |
| `ClientCart.Reduce` | lanchonete-app/src/App.js:96-97 | the left fold from the first line with a starting accumulator equals that accumulator plus the reference sum over the lines |
| `ClientCart.CalcularTotal` | lanchonete-app/src/App.js:95-99 | the total is the sum of price times quantity over all lines; the empty cart totals 0 |
| `ClientCart.TotalItens` | lanchonete-app/src/App.js:170-173 | the item count is the sum of the quantities; the empty cart counts 0 |
| `ClientCart.TotalItensAtLeastLines` | lanchonete-app/src/App.js:170-173 | with no line below one, the count is at least the number of lines and is 0 exactly for the empty cart |
| `ClientCart.ShiftAt` | lanchonete-app/src/App.js:50-52 | on a cart with one line per item, the map changes only the quantity of the line of that id, by exactly the delta |
| `ClientCart.ShiftAbsent` | lanchonete-app/src/App.js:64-66 | the map leaves a cart that has no line of the id exactly as it was |
| `ClientCart.AdicionarExisting` | lanchonete-app/src/App.js:47-53 | adding an item already present bumps that line by one and leaves the length and every other line unchanged; the count grows by 1 and the total by the line's stored price |
| `ClientCart.AdicionarNew` | lanchonete-app/src/App.js:54-56 | adding an absent item appends one line of quantity 1 after the unchanged earlier lines; the count grows by 1 and the total by the item's price |
| `ClientCart.AdicionarKeepsWellFormed` | lanchonete-app/src/App.js:46-56 | adding keeps one line per item and no line below one, the item is then in the cart, and the count grows by 1 |
| `ClientCart.AumentarAt` | lanchonete-app/src/App.js:62-68 | increasing bumps only the line of the id by one; the count grows by 1 and the total by that line's price |
| `ClientCart.AumentarAbsent` | lanchonete-app/src/App.js:62-68 | increasing an id with no line leaves the cart unchanged |
| `ClientCart.AumentarKeepsWellFormed` | lanchonete-app/src/App.js:62-68 | increasing keeps one line per item and no line below one |
| `ClientCart.Diminuir` | lanchonete-app/src/App.js:70-75 | after decreasing, no line has a quantity of 0 or below, and every line is a line of the mapped cart |
| `ClientCart.DiminuirAt` | lanchonete-app/src/App.js:70-77 | a line above one loses one unit in place; a line at one disappears and the other lines keep their order |
| `ClientCart.DiminuirTotals` | lanchonete-app/src/App.js:70-77 | decreasing a present id lowers the count by 1 and the total by that line's price |
| `ClientCart.DiminuirAbsent` | lanchonete-app/src/App.js:70-77 | decreasing an id with no line leaves a well-formed cart unchanged |
| `ClientCart.DiminuirKeepsWellFormed` | lanchonete-app/src/App.js:70-77 | decreasing keeps one line per item and no line below one |
| `ClientCart.Remover` | lanchonete-app/src/App.js:85-86 | no line of the id remains, and a line is in the result exactly when it was in the cart with another id |
| `ClientCart.RemoverAt` | lanchonete-app/src/App.js:85-87 | removing the one line of the id gives the cart without that position, others in order; count and total lose that line's quantity and subtotal |
| `ClientCart.RemoverAbsent` | lanchonete-app/src/App.js:85-87 | removing an id with no line leaves the cart unchanged |
| `ClientCart.RemoverKeepsWellFormed` | lanchonete-app/src/App.js:85-87 | removing keeps one line per item and no line below one |
| `Storefront.App.constructor` | lanchonete-app/src/App.js:14-23 | the initial state: empty cart, no last order, checkout, confirmation and side cart all closed |
| `Storefront.App.AdicionarAoCarrinho` | lanchonete-app/src/App.js:46-60 | the cart becomes the add transform of the old cart and keeps its invariant; the item is in it, the count grows by 1, and nothing else changes (the side cart is not opened) |
| `Storefront.App.AumentarQuantidade` | lanchonete-app/src/App.js:62-68 | the cart becomes the increase transform of the old cart, keeps its invariant and its length; nothing else changes |
| `Storefront.App.DiminuirQuantidade` | lanchonete-app/src/App.js:70-83 | the cart becomes the decrease transform of the old cart and keeps its invariant; the side cart closes exactly when the cart became empty and is otherwise unchanged |
| `Storefront.App.RemoverDoCarrinho` | lanchonete-app/src/App.js:85-93 | the cart becomes the remove transform of the old cart and keeps its invariant; the side cart closes exactly when the cart became empty |
| `Storefront.App.HandleToggleCarrinho` | lanchonete-app/src/App.js:102-107 | called while the checkout form is closed (its icon is rendered only then), the side cart flips when the cart has lines and stays as it was on an empty cart; nothing else changes, and the side cart stays open only over a non-empty cart |
| `Storefront.App.HandleFinalizarPedido` | lanchonete-app/src/App.js:109-112 | the checkout form opens and the side cart closes |
| `Storefront.App.HandleCheckoutSubmit` | lanchonete-app/src/App.js:114-155 | called from the open checkout form, the request carries the client, the cart and its total; on success the summary is recorded, the cart emptied, checkout and side cart closed and the confirmation shown; on a refused or failed request nothing changes |
| `Storefront.App.HandleNovoPedido` | lanchonete-app/src/App.js:157-160 | the confirmation and the side cart are closed |
| `Server.IdsDesc` | server.js:237-240 | the keys up to the bound come out strictly descending, each one present, and every present key up to the bound appears |
| `Server.IdsAsc` | server.js:107-110 | the keys up to the bound come out strictly ascending, each one present, and every present key up to the bound appears |
| `Server.NewestFirst` | server.js:213-216 | an id above every existing id is listed first, ahead of the unchanged listing of the others |
| `Server.Backend.Registrar` | server.js:27-63 | 400 exactly when a name or password is missing, 409 exactly when the name exists, 500 on a database error; only 201 adds a user, exactly one, with the given hash; every other answer leaves the table unchanged |
| `Server.Backend.Login` | server.js:66-98 | 400 exactly when a field is missing, 500 on a database error, 200 exactly when the name exists and the password check accepts its hash, 401 otherwise |
| `Server.Backend.ListarCardapio` | server.js:105-122 | on success, 200 with every menu row exactly once by strictly ascending id; on error, 500 and nothing |
| `Server.Backend.CriarItem` | server.js:125-147 | the new row gets the next identity value, not yet in the table, whatever id the body carried; it holds the body's columns and no other row changes |
| `Server.Backend.AtualizarItem` | server.js:150-176 | a missing row answers 404 with no change; otherwise only that row is replaced by the body's columns, keeping its id |
| `Server.Backend.RemoverItem` | server.js:179-195 | 204 whether or not the row existed, and only that row is removed |
| `Server.Backend.CriarPedido` | server.js:202-232 | the order stores the client, items and total exactly as given with status "Em preparação", whatever status or id the body carried, under an id above every existing id; no other order changes |
| `Server.Backend.ListarPedidos` | server.js:235-252 | on success, 200 with every order exactly once by strictly descending id; on error, 500 and nothing |
| `Server.Backend.AtualizarStatus` | server.js:255-284 | a missing order answers 404 with no change; otherwise only the status field of that one order changes, to any given string |
| `Server.Backend.RemoverPedido` | server.js:287-307 | 204 whether or not the order existed, and only that order is removed |

## Left out

- Floating point: prices and totals are integer cents, so the `toFixed(2)` strings of `calcularTotal` and of the line subtotals are not modelled. The order body's `total` is the integer, not the string.
- All `fetch` calls, the ten-second menu polling (`setInterval`), `FormData` reading, `alert` and console logging. The outcome of the order request is the parameter `resposta` of `HandleCheckoutSubmit`.
- The order body's `data` timestamp (a clock reading). The server ignores it anyway.
- React's asynchronous setters and the handlers' captured `carrinho`: each handler is one atomic step on the current state.
- `fetchCardapio`, `loading` and `error` (menu loading is I/O), and all JSX rendering, including `lanchonete-app/src/CardapioItem.js`, which is presentation only.
- `lanchonete-admin/src/App.js` is not part of this model: it is UI plus HTTP calls to the routes modelled here.
- `teste-whatsapp.js` is not part of this model: it is an external messaging client.
- bcrypt: the salted hash is a parameter of `Registrar`, and `bcrypt.compare` is the function parameter `confere` of `Login`. A failure inside bcrypt itself (the 500 from the catch block) is not modelled separately.
- Supabase: each database error is a boolean parameter. An exception caught by a handler's `catch` is treated like a reported error. A failed write is assumed to change nothing.
- Route ids are taken as already-parsed integers. What `parseInt` yielding `NaN` makes the database answer is not modelled.
- Server.Backend.AtualizarItem: a PUT body is modelled as a full set of menu columns. A body that omits some columns, which the database would apply as a partial update, is not modelled.
- Server.Backend.CriarPedido: `cliente`, `itens` and `total` are always present in the modelled body. A body that lacks one of them, which the handler would insert as null, is not modelled; the customer app always sends all three.
- Server.Backend.CriarItem: the modelled body carries every menu column. A POST body that lacks some columns, for which the database defaults would apply, is not modelled; the admin form always sends every column (`nome`, `descricao`, `preco`, `imagem`).
- Server.Backend.AtualizarStatus: `status` is always a string in the modelled request. An absent `status` (an empty patch) or a `null` one (a NULL written to the column) is not modelled; the admin app always sends a status string.
- Server.Backend.Registrar: the check-then-insert of a name is one atomic step here. Two concurrent registrations of one name racing past the check are not modelled.
- `server.js` has no cart-persistence endpoints, no cart clearing on submission, no status-change notifications and no reporting view; none is modelled.
- Static file serving and the catch-all routes of `server.js` (lines 314-334), `dotenv`, CORS and JSON middleware.
- JavaScript falsiness: request strings are modelled as optional strings, and `!field` is "absent or empty". Non-string falsy values (`0`, `false`, `null`) are covered only as "absent".

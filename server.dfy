/**
 * The decisions of the HTTP route handlers of the server over its three
 * tables: `pedidos_lanche` (orders), `cardapio` (menu) and `usuarios`
 * (accounts). Each table is a map held by class Backend; a new row gets the
 * next value of the table's identity counter. Whether the database call of a
 * handler reports an error is a parameter of that handler.
 */
module Server {
  import opened Wrappers
  import opened Records

  /** The status every new order starts in. */
  const EmPreparacao: string := "Em preparação"

  /** A row of `pedidos_lanche`. */
  datatype Pedido = Pedido(id: int, cliente: Cliente, itens: seq<CartLine>, total: int, status: string)

  /** The body of POST /api/pedidos; a client may send an `id` or a `status` too. */
  datatype PedidoBody = PedidoBody(
    cliente: Cliente,
    itens: seq<CartLine>,
    total: int,
    id: Option<int>,
    status: Option<string>)

  /** The body of POST and PUT /api/cardapio; its `id`, if any, is deleted before use. */
  datatype ItemBody = ItemBody(
    id: Option<int>,
    nome: string,
    descricao: string,
    preco: int,
    imagem: string)

  /** JavaScript's `!field` on a request string: absent or empty. */
  predicate Missing(field: Option<string>) {
    field.None? || field.value == ""
  }

  /** The menu row a body describes once the table has given it `id`. */
  function RowFrom(id: int, body: ItemBody): (r: MenuItem)
    ensures r.id == id
  {
    MenuItem(id, body.nome, body.descricao, body.preco, body.imagem)
  }

  // ---------------------------------------------------------------------
  // `.order("id", ...)` over identity keys 1..k
  // ---------------------------------------------------------------------

  /** The keys of `ids` between 1 and `k`, largest first. */
  function IdsDesc(ids: set<int>, k: int): (r: seq<int>)
    decreases k
    ensures forall i, j :: 0 <= i < j < |r| ==> r[i] > r[j]
    ensures forall i :: 0 <= i < |r| ==> r[i] in ids && 1 <= r[i] <= k
    ensures forall x :: x in ids && 1 <= x <= k ==> x in r
  {
    if k < 1 then [] else (if k in ids then [k] else []) + IdsDesc(ids, k - 1)
  }

  /** The keys of `ids` between 1 and `k`, smallest first. */
  function IdsAsc(ids: set<int>, k: int): (r: seq<int>)
    decreases k
    ensures forall i, j :: 0 <= i < j < |r| ==> r[i] < r[j]
    ensures forall i :: 0 <= i < |r| ==> r[i] in ids && 1 <= r[i] <= k
    ensures forall x :: x in ids && 1 <= x <= k ==> x in r
  {
    if k < 1 then [] else IdsAsc(ids, k - 1) + (if k in ids then [k] else [])
  }

  /** The descending listing depends only on which keys up to `k` are present. */
  lemma {:induction false} IdsDescAgree(a: set<int>, b: set<int>, k: int)
    requires forall x :: 1 <= x <= k ==> (x in a <==> x in b)
    ensures IdsDesc(a, k) == IdsDesc(b, k)
    decreases k
  {
    if k >= 1 {
      IdsDescAgree(a, b, k - 1);
    }
  }

  /** A key above every existing one is listed first, ahead of the unchanged rest. */
  lemma NewestFirst(ids: set<int>, n: int)
    requires n >= 1
    requires forall x :: x in ids ==> x < n
    ensures IdsDesc(ids + {n}, n) == [n] + IdsDesc(ids, n - 1)
  {
    IdsDescAgree(ids + {n}, ids, n - 1);
  }

  class Backend {
    var pedidos: map<int, Pedido>
    var proximoPedido: int
    var cardapio: map<int, MenuItem>
    var proximoItem: int
    var usuarios: map<string, string>

    /** Rows are keyed by their own id, and every id is below the table's next identity value. */
    ghost predicate Valid()
      reads this
    {
      && 1 <= proximoPedido
      && 1 <= proximoItem
      && (forall id :: id in pedidos ==> 1 <= id < proximoPedido && pedidos[id].id == id)
      && (forall id :: id in cardapio ==> 1 <= id < proximoItem && cardapio[id].id == id)
    }

    /** Empty tables. */
    constructor ()
      ensures Valid()
      ensures pedidos == map[] && cardapio == map[] && usuarios == map[]
    {
      pedidos := map[];
      proximoPedido := 1;
      cardapio := map[];
      proximoItem := 1;
      usuarios := map[];
    }

    // -------------------------------------------------------------------
    // /api/usuarios
    // -------------------------------------------------------------------

    /**
     * POST /api/usuarios/registrar. `senhaHash` is the salted hash of `senha`
     * computed for this request; the two database results are parameters.
     */
    method Registrar(nome: Option<string>, senha: Option<string>, senhaHash: string,
                     erroConsulta: bool, erroInsercao: bool) returns (code: int)
      modifies this`usuarios
      ensures code == 400 <==> Missing(nome) || Missing(senha)
      ensures code == 500 <==> (!Missing(nome) && !Missing(senha) &&
        (erroConsulta || (nome.value !in old(usuarios) && erroInsercao)))
      ensures code == 409 <==> (!Missing(nome) && !Missing(senha) && !erroConsulta &&
        nome.value in old(usuarios))
      ensures code == 201 <==> (!Missing(nome) && !Missing(senha) && !erroConsulta &&
        nome.value !in old(usuarios) && !erroInsercao)
      ensures code == 201 ==> usuarios == old(usuarios)[nome.value := senhaHash]
      ensures code != 201 ==> usuarios == old(usuarios)
    {
      if Missing(nome) || Missing(senha) {
        return 400;
      }
      if erroConsulta {
        return 500;
      }
      if nome.value in usuarios {
        return 409;
      }
      if erroInsercao {
        return 500;
      }
      usuarios := usuarios[nome.value := senhaHash];
      code := 201;
    }

    /**
     * POST /api/usuarios/login. `confere` is the password check against the
     * stored hash; the lookup's database result is a parameter.
     */
    method Login(nome: Option<string>, senha: Option<string>,
                 confere: (string, string) -> bool, erroConsulta: bool) returns (code: int)
      ensures code == 400 <==> Missing(nome) || Missing(senha)
      ensures code == 500 <==> !Missing(nome) && !Missing(senha) && erroConsulta
      ensures code == 200 <==> (!Missing(nome) && !Missing(senha) && !erroConsulta &&
        nome.value in usuarios && confere(senha.value, usuarios[nome.value]))
      ensures code == 401 <==> (!Missing(nome) && !Missing(senha) && !erroConsulta &&
        (nome.value !in usuarios || !confere(senha.value, usuarios[nome.value])))
    {
      if Missing(nome) || Missing(senha) {
        return 400;
      }
      if erroConsulta {
        return 500;
      }
      if nome.value !in usuarios {
        return 401;
      }
      if confere(senha.value, usuarios[nome.value]) {
        code := 200;
      } else {
        code := 401;
      }
    }

    // -------------------------------------------------------------------
    // /api/cardapio
    // -------------------------------------------------------------------

    /** GET /api/cardapio: every menu row, by ascending id. */
    method ListarCardapio(erro: bool) returns (code: int, itens: seq<MenuItem>)
      requires Valid()
      ensures erro ==> code == 500 && itens == []
      ensures !erro ==> code == 200
      ensures forall i, j :: 0 <= i < j < |itens| ==> itens[i].id < itens[j].id
      ensures forall i :: 0 <= i < |itens| ==> itens[i].id in cardapio && cardapio[itens[i].id] == itens[i]
      ensures !erro ==> forall id :: id in cardapio ==> exists i :: 0 <= i < |itens| && itens[i].id == id
    {
      if erro {
        return 500, [];
      }
      var rows := cardapio;
      var ids := IdsAsc(rows.Keys, proximoItem - 1);
      itens := seq(|ids|, i requires 0 <= i < |ids| => rows[ids[i]]);
      forall i | 0 <= i < |itens|
        ensures itens[i].id == ids[i] && itens[i].id in cardapio && cardapio[itens[i].id] == itens[i]
      {
        assert ids[i] in rows;
      }
      code := 200;
      forall id | id in cardapio ensures exists i :: 0 <= i < |itens| && itens[i].id == id {
        var i :| 0 <= i < |ids| && ids[i] == id;
        assert itens[i].id == id;
      }
    }

    /** POST /api/cardapio: the row gets the next identity value, whatever `id` the body carried. */
    method CriarItem(body: ItemBody, erro: bool) returns (code: int, criado: Option<MenuItem>)
      requires Valid()
      modifies this`cardapio, this`proximoItem
      ensures Valid()
      ensures erro ==> (code == 500 && criado == None &&
        cardapio == old(cardapio) && proximoItem == old(proximoItem))
      ensures !erro ==> && code == 201
                        && criado == Some(RowFrom(old(proximoItem), body))
                        && old(proximoItem) !in old(cardapio)
                        && cardapio == old(cardapio)[old(proximoItem) := criado.value]
                        && proximoItem == old(proximoItem) + 1
    {
      if erro {
        return 500, None;
      }
      var row := RowFrom(proximoItem, body);
      cardapio := cardapio[proximoItem := row];
      proximoItem := proximoItem + 1;
      code, criado := 201, Some(row);
    }

    /** PUT /api/cardapio/:id: replaces the row's columns (never its id); no such row is 404. */
    method AtualizarItem(id: int, body: ItemBody, erro: bool) returns (code: int, atualizado: Option<MenuItem>)
      requires Valid()
      modifies this`cardapio
      ensures Valid()
      ensures erro ==> code == 500 && atualizado == None && cardapio == old(cardapio)
      ensures !erro && id !in old(cardapio) ==>
        code == 404 && atualizado == None && cardapio == old(cardapio)
      ensures !erro && id in old(cardapio) ==>
        && code == 200
        && atualizado == Some(RowFrom(id, body))
        && cardapio == old(cardapio)[id := RowFrom(id, body)]
    {
      if erro {
        return 500, None;
      }
      if id !in cardapio {
        return 404, None;
      }
      var row := RowFrom(id, body);
      cardapio := cardapio[id := row];
      code, atualizado := 200, Some(row);
    }

    /** DELETE /api/cardapio/:id: 204 whether or not the row existed. */
    method RemoverItem(id: int, erro: bool) returns (code: int)
      requires Valid()
      modifies this`cardapio
      ensures Valid()
      ensures erro ==> code == 500 && cardapio == old(cardapio)
      ensures !erro ==> code == 204 && cardapio == old(cardapio) - {id}
    {
      if erro {
        return 500;
      }
      cardapio := cardapio - {id};
      code := 204;
    }

    // -------------------------------------------------------------------
    // /api/pedidos
    // -------------------------------------------------------------------

    /**
     * POST /api/pedidos: stores the body's client, items and total as given,
     * in status "Em preparação", under an id above every existing one.
     */
    method CriarPedido(body: PedidoBody, erro: bool) returns (code: int, criado: Option<Pedido>)
      requires Valid()
      modifies this`pedidos, this`proximoPedido
      ensures Valid()
      ensures erro ==> (code == 500 && criado == None &&
        pedidos == old(pedidos) && proximoPedido == old(proximoPedido))
      ensures !erro ==>
        && code == 201
        && criado == Some(Pedido(old(proximoPedido), body.cliente, body.itens, body.total, EmPreparacao))
        && (forall id :: id in old(pedidos) ==> id < criado.value.id)
        && pedidos == old(pedidos)[criado.value.id := criado.value]
        && proximoPedido == old(proximoPedido) + 1
    {
      if erro {
        return 500, None;
      }
      var novoPedido := Pedido(proximoPedido, body.cliente, body.itens, body.total, EmPreparacao);
      pedidos := pedidos[proximoPedido := novoPedido];
      proximoPedido := proximoPedido + 1;
      code, criado := 201, Some(novoPedido);
    }

    /** GET /api/pedidos: every order, by strictly descending id. */
    method ListarPedidos(erro: bool) returns (code: int, lista: seq<Pedido>)
      requires Valid()
      ensures erro ==> code == 500 && lista == []
      ensures !erro ==> code == 200
      ensures forall i, j :: 0 <= i < j < |lista| ==> lista[i].id > lista[j].id
      ensures forall i :: 0 <= i < |lista| ==> lista[i].id in pedidos && pedidos[lista[i].id] == lista[i]
      ensures !erro ==> forall id :: id in pedidos ==> exists i :: 0 <= i < |lista| && lista[i].id == id
    {
      if erro {
        return 500, [];
      }
      var rows := pedidos;
      var ids := IdsDesc(rows.Keys, proximoPedido - 1);
      lista := seq(|ids|, i requires 0 <= i < |ids| => rows[ids[i]]);
      forall i | 0 <= i < |lista|
        ensures lista[i].id == ids[i] && lista[i].id in pedidos && pedidos[lista[i].id] == lista[i]
      {
        assert ids[i] in rows;
      }
      code := 200;
      forall id | id in pedidos ensures exists i :: 0 <= i < |lista| && lista[i].id == id {
        var i :| 0 <= i < |ids| && ids[i] == id;
        assert lista[i].id == id;
      }
    }

    /**
     * PUT /api/pedidos/:id: sets the status of that order, any string, with
     * no transition check; no such order is 404 and nothing changes.
     */
    method AtualizarStatus(id: int, status: string, erro: bool) returns (code: int, atualizado: Option<Pedido>)
      requires Valid()
      modifies this`pedidos
      ensures Valid()
      ensures erro ==> code == 500 && atualizado == None && pedidos == old(pedidos)
      ensures !erro && id !in old(pedidos) ==>
        code == 404 && atualizado == None && pedidos == old(pedidos)
      ensures !erro && id in old(pedidos) ==>
        && code == 200
        && atualizado == Some(old(pedidos)[id].(status := status))
        && pedidos == old(pedidos)[id := atualizado.value]
    {
      if erro {
        return 500, None;
      }
      if id !in pedidos {
        return 404, None;
      }
      var linha := pedidos[id].(status := status);
      pedidos := pedidos[id := linha];
      code, atualizado := 200, Some(linha);
    }

    /** DELETE /api/pedidos/:id: 204 whether or not the order existed. */
    method RemoverPedido(id: int, erro: bool) returns (code: int)
      requires Valid()
      modifies this`pedidos
      ensures Valid()
      ensures erro ==> code == 500 && pedidos == old(pedidos)
      ensures !erro ==> code == 204 && pedidos == old(pedidos) - {id}
    {
      if erro {
        return 500;
      }
      pedidos := pedidos - {id};
      code := 204;
    }
  }
}

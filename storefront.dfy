/**
 * The state of the customer app's component and the handlers that update it
 * through their setters. Each handler is one atomic step here; the line
 * transforms it applies are the functions of module ClientCart.
 */
module Storefront {
  import opened Wrappers
  import opened Records
  import opened ClientCart

  /** The body POSTed to the order endpoint (`dadosDoPedido`), without its timestamp. */
  datatype PedidoEnviado = PedidoEnviado(cliente: Cliente, itens: seq<CartLine>, total: int)

  /** The summary kept for the confirmation screen (`ultimoPedido`). */
  datatype Resumo = Resumo(itens: seq<CartLine>, total: int)

  /** How the order request ended: `response.ok`, a non-ok response, or a failed connection. */
  datatype Resposta = Aceito | Recusado | FalhaDeConexao

  class App {
    var carrinho: seq<CartLine>
    var mostraCheckout: bool
    var pedidoFinalizado: bool
    var ultimoPedido: Option<Resumo>
    var mostraCarrinho: bool

    /**
     * The cart holds one line per menu item and no line below one; the side
     * cart is open only over a non-empty cart, and never beside the checkout form.
     */
    ghost predicate Valid()
      reads this
    {
      && WellFormed(carrinho)
      && (mostraCarrinho ==> carrinho != [])
      && (mostraCheckout ==> !mostraCarrinho)
    }

    /** The initial `useState` values. */
    constructor ()
      ensures Valid()
      ensures carrinho == [] && ultimoPedido == None
      ensures !mostraCheckout && !pedidoFinalizado && !mostraCarrinho
    {
      carrinho := [];
      mostraCheckout := false;
      pedidoFinalizado := false;
      ultimoPedido := None;
      mostraCarrinho := false;
    }

    /** `adicionarAoCarrinho`: the side cart is not opened. */
    method AdicionarAoCarrinho(item: MenuItem)
      requires Valid()
      modifies this`carrinho
      ensures Valid()
      ensures carrinho == Adicionar(old(carrinho), item)
      ensures HasId(carrinho, item.id)
      ensures TotalItens(carrinho) == TotalItens(old(carrinho)) + 1
    {
      AdicionarKeepsWellFormed(carrinho, item);
      carrinho := Adicionar(carrinho, item);
    }

    /** `aumentarQuantidade`. */
    method AumentarQuantidade(id: int)
      requires Valid()
      modifies this`carrinho
      ensures Valid()
      ensures carrinho == Aumentar(old(carrinho), id)
      ensures |carrinho| == |old(carrinho)|
    {
      AumentarKeepsWellFormed(carrinho, id);
      carrinho := Aumentar(carrinho, id);
    }

    /** `diminuirQuantidade`: closes the side cart when the cart becomes empty. */
    method DiminuirQuantidade(id: int)
      requires Valid()
      modifies this`carrinho, this`mostraCarrinho
      ensures Valid()
      ensures carrinho == Diminuir(old(carrinho), id)
      ensures mostraCarrinho == (old(mostraCarrinho) && carrinho != [])
    {
      DiminuirKeepsWellFormed(carrinho, id);
      var novoCarrinho := Diminuir(carrinho, id);
      carrinho := novoCarrinho;
      if |novoCarrinho| == 0 {
        mostraCarrinho := false;
      }
    }

    /** `removerDoCarrinho`: closes the side cart when the cart becomes empty. */
    method RemoverDoCarrinho(id: int)
      requires Valid()
      modifies this`carrinho, this`mostraCarrinho
      ensures Valid()
      ensures carrinho == Remover(old(carrinho), id)
      ensures mostraCarrinho == (old(mostraCarrinho) && carrinho != [])
    {
      RemoverKeepsWellFormed(carrinho, id);
      var novoCarrinho := Remover(carrinho, id);
      carrinho := novoCarrinho;
      if |novoCarrinho| == 0 {
        mostraCarrinho := false;
      }
    }

    /**
     * `handleToggleCarrinho`: flips the side cart only when the cart has lines.
     * Its icon is rendered only while the checkout form is closed.
     */
    method HandleToggleCarrinho()
      requires Valid()
      requires !mostraCheckout
      modifies this`mostraCarrinho
      ensures Valid()
      ensures old(carrinho) != [] ==> mostraCarrinho == !old(mostraCarrinho)
      ensures old(carrinho) == [] ==> mostraCarrinho == old(mostraCarrinho)
    {
      if |carrinho| > 0 {
        mostraCarrinho := !mostraCarrinho;
      }
    }

    /** `handleFinalizarPedido`: open the checkout form, close the side cart. */
    method HandleFinalizarPedido()
      requires Valid()
      modifies this`mostraCheckout, this`mostraCarrinho
      ensures Valid()
      ensures mostraCheckout && !mostraCarrinho
    {
      mostraCheckout := true;
      mostraCarrinho := false;
    }

    /**
     * `handleCheckoutSubmit`: sends the cart and its total; only an accepted
     * request records the summary, empties the cart, leaves the checkout form
     * and shows the confirmation. A refused or failed request changes nothing.
     * Its form is rendered only while the checkout form is open.
     */
    method HandleCheckoutSubmit(cliente: Cliente, resposta: Resposta) returns (enviado: PedidoEnviado)
      requires Valid()
      requires mostraCheckout
      modifies this`carrinho, this`ultimoPedido, this`mostraCheckout, this`pedidoFinalizado
      ensures Valid()
      ensures enviado == PedidoEnviado(cliente, old(carrinho), CalcularTotal(old(carrinho)))
      ensures resposta == Aceito ==>
        && ultimoPedido == Some(Resumo(old(carrinho), CalcularTotal(old(carrinho))))
        && carrinho == []
        && !mostraCheckout
        && !mostraCarrinho
        && pedidoFinalizado
      ensures resposta != Aceito ==>
        && carrinho == old(carrinho)
        && ultimoPedido == old(ultimoPedido)
        && mostraCheckout == old(mostraCheckout)
        && pedidoFinalizado == old(pedidoFinalizado)
    {
      enviado := PedidoEnviado(cliente, carrinho, CalcularTotal(carrinho));
      if resposta == Aceito {
        ultimoPedido := Some(Resumo(carrinho, CalcularTotal(carrinho)));
        carrinho := [];
        mostraCheckout := false;
        pedidoFinalizado := true;
      }
    }

    /** `handleNovoPedido`: back to the menu. */
    method HandleNovoPedido()
      requires Valid()
      modifies this`pedidoFinalizado, this`mostraCarrinho
      ensures Valid()
      ensures !pedidoFinalizado && !mostraCarrinho
    {
      pedidoFinalizado := false;
      mostraCarrinho := false;
    }
  }
}

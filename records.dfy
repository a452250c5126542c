/** The usual optional value. */
module Wrappers {
  datatype Option<+T> = None | Some(value: T)
}

/**
 * The JSON records that the customer app, the admin app and the server
 * exchange. Prices are integer cents (the apps use JavaScript numbers and
 * format them with two decimals).
 */
module Records {

  /** A row of the `cardapio` table, as the menu endpoint returns it. */
  datatype MenuItem = MenuItem(
    id: int,
    nome: string,
    descricao: string,
    preco: int,
    imagem: string)

  /**
   * A cart line: the menu item as it was when it was first added
   * (`{ ...item, quantidade: 1 }`), plus its quantity.
   */
  datatype CartLine = CartLine(item: MenuItem, quantidade: int)

  /** The customer block the checkout form sends with an order. */
  datatype Cliente = Cliente(nome: string, endereco: string, pagamento: string)
}

/**
 * The record shapes the buyer, courier and address-book pages exchange
 * (the interfaces of lib/api.ts). Money is exact (`real`); timestamps the
 * pages compare are milliseconds since the epoch.
 */
module ApiTypes {
  import opened Common

  /** A catalogue item as the buyer sees it. */
  datatype Product = Product(
    id: int,
    name: string,
    price: real,
    unit: string,
    image: string,
    rating: real,
    vendor: string,
    category: string,
    stock: Option<int>,
    description: Option<string>)

  /** A saved delivery address of the buyer. */
  datatype Address = Address(id: int, rua: string, numero: string, cidade: string, estado: string, cep: string)

  /** The address form (CreateAddressRequest). */
  datatype AddressForm = AddressForm(rua: string, numero: string, cidade: string, estado: string, cep: string)

  /** One line of a placed order; `produto` is the product snapshot taken at checkout. */
  datatype OrderItem = OrderItem(produtoId: int, quantidade: int, produto: Option<Product>)

  datatype Order = Order(
    id: int,
    userId: int,
    enderecoId: int,
    itens: seq<OrderItem>,
    total: real,
    status: string,
    createdAt: string)

  /** The closed status type of a delivery. */
  datatype DeliveryStatus = AguardandoColeta | EmTransito | Entregue | Cancelada

  datatype DeliveryAddress = DeliveryAddress(rua: string, numero: string, cidade: string, estado: string, cep: string)

  datatype Client = Client(nome: string, telefone: Option<string>)

  datatype DeliveryItem = DeliveryItem(nome: string, quantidade: int, preco: real)

  /**
   * A courier-facing delivery. `distancia` is the distance in kilometres,
   * already read out of its "2.1 km" text; `updatedAt` is in milliseconds.
   */
  datatype Delivery = Delivery(
    id: int,
    pedidoId: int,
    entregadorId: Option<int>,
    status: DeliveryStatus,
    endereco: DeliveryAddress,
    cliente: Client,
    itens: seq<DeliveryItem>,
    valorTotal: real,
    distancia: Option<real>,
    tempoEstimado: Option<string>,
    observacoes: Option<string>,
    createdAt: int,
    updatedAt: int)

  /** The closed approval status of a courier profile ("pendente" | "aprovado" | "rejeitado"). */
  datatype ApprovalStatus = Pendente | Aprovado | Rejeitado

  /** The courier's own profile. */
  datatype DeliveryProfile = DeliveryProfile(
    id: int,
    userId: int,
    statusAprovacao: ApprovalStatus,
    veiculo: Option<string>,
    cnh: Option<string>,
    createdAt: string)
}

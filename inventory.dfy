/** The records the remote inventory returns, reduced to the fields the workflow reads or
    displays, and the remote service itself as an abstract collaborator. */
module Inventory {

  /** One entry of a VPC listing (the `VpcId`, `CidrBlock` and `State` keys). */
  datatype Vpc = Vpc(vpcId: string, cidrBlock: string, state: string)

  /** One entry of a transit-gateway listing; `description` is shown as "N/A" when absent. */
  datatype TransitGateway = TransitGateway(transitGatewayId: string, description: string, state: string)

  /** One entry of a subnet listing for a given VPC. */
  datatype Subnet = Subnet(subnetId: string, cidrBlock: string, availabilityZone: string)

  /** One entry of a route-table listing for a given VPC. */
  datatype RouteTable = RouteTable(routeTableId: string)

  /** The remote inventory as the workflow sees it during one run: the listings it returns
      (in provider order, per VPC for subnets and route tables) and whether each of the two
      mutating calls is rejected by the service. */
  datatype Remote = Remote(
    vpcs: seq<Vpc>,
    transitGateways: seq<TransitGateway>,
    subnetsOf: string -> seq<Subnet>,
    routeTablesOf: string -> seq<RouteTable>,
    attachmentRejected: bool,
    routeRejected: bool)
}

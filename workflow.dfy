/** The attachment workflow: the operator picks a source VPC, a transit gateway and source
    subnets; the VPC is attached to the gateway; the operator then picks a destination VPC
    (from the first VPC listing without the source), one of its subnets and a route table of
    the source VPC; a route to the destination subnet's block through the gateway is created
    and the configuration document is written. */
module Workflow {
  import opened Results
  import opened Inventory
  import opened Selection
  import opened Destinations
  import opened Terraform

  /** The operator's replies to the six prompts, in prompt order, already read as integers. */
  datatype Answers = Answers(
    vpc: int,
    transitGateway: int,
    subnets: seq<int>,
    destinationVpc: int,
    destinationSubnet: int,
    routeTable: int)

  /** The steps a run can stop at. */
  datatype Step =
    | ChooseVpc | ChooseTransitGateway | ChooseSubnets | AttachVpc
    | ChooseDestinationVpc | ChooseDestinationSubnet | ChooseRouteTable | UpdateRouteTable

  /** Why a run stopped early: a reply selected nothing, or the service rejected a mutation. */
  datatype Failure =
    | SelectionFailed(step: Step, reason: SelectionError)
    | MutationFailed(step: Step)

  /** The calls a run issues that change something outside it. */
  datatype Call =
    | CreateAttachment(transitGatewayId: string, vpcId: string, subnetIds: seq<string>)
    | CreateRoute(routeTableId: string, destinationCidrBlock: string, transitGatewayId: string)
    | WriteDocument(text: string)

  /** What a run did (the calls, in issue order) and how it ended (the document, or why not). */
  datatype Report = Report(calls: seq<Call>, outcome: Result<string, Failure>)

  /** The position each kind of call takes in a complete run. */
  function Rank(c: Call): nat
  {
    match c
    case CreateAttachment(_, _, _) => 0
    case CreateRoute(_, _, _) => 1
    case WriteDocument(_) => 2
  }

  /** The calls issued are a prefix of: attach, then route, then write. */
  predicate InCallOrder(calls: seq<Call>)
  {
    forall k :: 0 <= k < |calls| ==> Rank(calls[k]) == k
  }

  /** How many calls had been issued when a run stopped at `step`. */
  function IssuedBefore(step: Step): nat
  {
    match step
    case ChooseVpc => 0
    case ChooseTransitGateway => 0
    case ChooseSubnets => 0
    case AttachVpc => 1
    case ChooseDestinationVpc => 1
    case ChooseDestinationSubnet => 1
    case ChooseRouteTable => 1
    case UpdateRouteTable => 2
  }

  /** One run of the workflow against `remote`, driven by `answers`. */
  function Run(remote: Remote, answers: Answers): (report: Report)
    ensures InCallOrder(report.calls)
    ensures report.outcome.Ok? <==> |report.calls| == 3
    ensures report.outcome.Ok? ==> report.calls[2] == WriteDocument(report.outcome.value)
    ensures report.outcome.Err? ==> |report.calls| == IssuedBefore(report.outcome.error.step)
    ensures |report.calls| >= 2 ==> report.calls[1].transitGatewayId == report.calls[0].transitGatewayId
  {
    var source := Resolve(remote.vpcs, answers.vpc);
    if source.Err? then Report([], Err(SelectionFailed(ChooseVpc, source.error))) else
    var vpcId := source.value.vpcId;
    var hub := Resolve(remote.transitGateways, answers.transitGateway);
    if hub.Err? then Report([], Err(SelectionFailed(ChooseTransitGateway, hub.error))) else
    var tgwId := hub.value.transitGatewayId;
    var chosen := ChooseSubnetIds(remote.subnetsOf(vpcId), answers.subnets);
    if chosen.Err? then Report([], Err(SelectionFailed(ChooseSubnets, chosen.error))) else
    var subnetIds := chosen.value;
    var attach := CreateAttachment(tgwId, vpcId, subnetIds);
    if remote.attachmentRejected then Report([attach], Err(MutationFailed(AttachVpc))) else
    var destination := Resolve(ExcludeVpc(remote.vpcs, vpcId), answers.destinationVpc);
    if destination.Err? then Report([attach], Err(SelectionFailed(ChooseDestinationVpc, destination.error))) else
    var destinationSubnet := Resolve(remote.subnetsOf(destination.value.vpcId), answers.destinationSubnet);
    if destinationSubnet.Err? then Report([attach], Err(SelectionFailed(ChooseDestinationSubnet, destinationSubnet.error))) else
    var cidr := destinationSubnet.value.cidrBlock;
    var table := Resolve(remote.routeTablesOf(vpcId), answers.routeTable);
    if table.Err? then Report([attach], Err(SelectionFailed(ChooseRouteTable, table.error))) else
    var routeTableId := table.value.routeTableId;
    var route := CreateRoute(routeTableId, cidr, tgwId);
    if remote.routeRejected then Report([attach, route], Err(MutationFailed(UpdateRouteTable))) else
    var document := Render(tgwId, vpcId, subnetIds, routeTableId, cidr);
    Report([attach, route, WriteDocument(document)], Ok(document))
  }

  /** A run with its remote inventory and its operator's replies injected; `calls` is the
      trace of the calls it has issued. */
  class Session {
    const remote: Remote
    const answers: Answers
    var calls: seq<Call>

    constructor (remote: Remote, answers: Answers)
      ensures this.remote == remote && this.answers == answers && calls == []
    {
      this.remote := remote;
      this.answers := answers;
      calls := [];
    }

    /** Runs the workflow once, step by step, appending each mutating call to the trace as
        it is issued. */
    method Execute() returns (outcome: Result<string, Failure>)
      requires calls == []
      modifies this
      ensures calls == Run(remote, answers).calls && InCallOrder(calls)
      ensures outcome == Run(remote, answers).outcome
    {
      var vpcs := remote.vpcs;
      var source := Resolve(vpcs, answers.vpc);
      if source.Err? { return Err(SelectionFailed(ChooseVpc, source.error)); }
      var vpcId := source.value.vpcId;

      var hub := Resolve(remote.transitGateways, answers.transitGateway);
      if hub.Err? { return Err(SelectionFailed(ChooseTransitGateway, hub.error)); }
      var tgwId := hub.value.transitGatewayId;

      var chosen := ChooseSubnetIds(remote.subnetsOf(vpcId), answers.subnets);
      if chosen.Err? { return Err(SelectionFailed(ChooseSubnets, chosen.error)); }
      var subnetIds := chosen.value;

      calls := calls + [CreateAttachment(tgwId, vpcId, subnetIds)];
      if remote.attachmentRejected { return Err(MutationFailed(AttachVpc)); }

      vpcs := ExcludeVpc(vpcs, vpcId);
      var destination := Resolve(vpcs, answers.destinationVpc);
      if destination.Err? { return Err(SelectionFailed(ChooseDestinationVpc, destination.error)); }
      var destinationVpcId := destination.value.vpcId;

      var destinationSubnet := Resolve(remote.subnetsOf(destinationVpcId), answers.destinationSubnet);
      if destinationSubnet.Err? { return Err(SelectionFailed(ChooseDestinationSubnet, destinationSubnet.error)); }
      var cidr := destinationSubnet.value.cidrBlock;

      var table := Resolve(remote.routeTablesOf(vpcId), answers.routeTable);
      if table.Err? { return Err(SelectionFailed(ChooseRouteTable, table.error)); }
      var routeTableId := table.value.routeTableId;

      calls := calls + [CreateRoute(routeTableId, cidr, tgwId)];
      if remote.routeRejected { return Err(MutationFailed(UpdateRouteTable)); }

      var document := Render(tgwId, vpcId, subnetIds, routeTableId, cidr);
      calls := calls + [WriteDocument(document)];
      outcome := Ok(document);
    }
  }

  /** The attachment call, whenever it is issued (also in a run that stops after it),
      attaches the VPC selected by the first reply to the gateway selected by the second,
      through the subnets of that VPC selected by the third, one per index, in reply order. */
  lemma AttachmentFromListings(remote: Remote, answers: Answers)
    requires |Run(remote, answers).calls| >= 1
    ensures var a := Run(remote, answers).calls[0];
      && a.CreateAttachment?
      && 0 <= answers.vpc < |remote.vpcs|
      && 0 <= answers.transitGateway < |remote.transitGateways|
      && a.vpcId == remote.vpcs[answers.vpc].vpcId
      && a.transitGatewayId == remote.transitGateways[answers.transitGateway].transitGatewayId
      && |a.subnetIds| == |answers.subnets| > 0
      && (forall k :: 0 <= k < |a.subnetIds| ==>
            0 <= answers.subnets[k] < |remote.subnetsOf(a.vpcId)| &&
            a.subnetIds[k] == remote.subnetsOf(a.vpcId)[answers.subnets[k]].subnetId)
  {
    assert Resolve(remote.vpcs, answers.vpc).Ok?;
    assert Resolve(remote.transitGateways, answers.transitGateway).Ok?;
  }

  /** The route is built from the replies resolved against the right listings: its
      destination block is that of the subnet chosen at `destinationSubnet` among the
      subnets of the VPC chosen at `destinationVpc` in the filtered candidate listing (a new
      index space, not the first VPC listing); its route table is the one chosen among the
      route tables of the source VPC (not the destination VPC); its gateway is the one the
      source VPC was attached to. In particular the destination VPC is another listed VPC. */
  lemma RouteFromListings(remote: Remote, answers: Answers)
    requires |Run(remote, answers).calls| >= 2
    ensures var a, r := Run(remote, answers).calls[0], Run(remote, answers).calls[1];
      && 0 <= answers.vpc < |remote.vpcs|
      && 0 <= answers.transitGateway < |remote.transitGateways|
      && var source := remote.vpcs[answers.vpc].vpcId;
      && var candidates := ExcludeVpc(remote.vpcs, source);
      && 0 <= answers.destinationVpc < |candidates|
      && var destination := candidates[answers.destinationVpc].vpcId;
      && 0 <= answers.destinationSubnet < |remote.subnetsOf(destination)|
      && 0 <= answers.routeTable < |remote.routeTablesOf(source)|
      && a.vpcId == source
      && a.transitGatewayId == remote.transitGateways[answers.transitGateway].transitGatewayId
      && r == CreateRoute(remote.routeTablesOf(source)[answers.routeTable].routeTableId,
                          remote.subnetsOf(destination)[answers.destinationSubnet].cidrBlock,
                          a.transitGatewayId)
      && destination != source
      && (exists d :: d in remote.vpcs && d.vpcId == destination)
  {
    assert Resolve(remote.vpcs, answers.vpc).Ok?;
    var source := remote.vpcs[answers.vpc].vpcId;
    assert Resolve(remote.transitGateways, answers.transitGateway).Ok?;
    var candidates := ExcludeVpc(remote.vpcs, source);
    assert Resolve(candidates, answers.destinationVpc).Ok?;
    var d := candidates[answers.destinationVpc];
    assert d in candidates;
    assert Resolve(remote.subnetsOf(d.vpcId), answers.destinationSubnet).Ok?;
    assert Resolve(remote.routeTablesOf(source), answers.routeTable).Ok?;
  }

  /** The document written at the end describes exactly the two mutations the run performed:
      reading it back gives the attachment's hub, VPC and subnets and the route's table,
      destination block and hub. */
  lemma DocumentDescribesCalls(remote: Remote, answers: Answers)
    requires Run(remote, answers).outcome.Ok?
    requires var c := Run(remote, answers).calls;
      '"' !in c[0].transitGatewayId && '"' !in c[0].vpcId &&
      '"' !in c[1].routeTableId && '"' !in c[1].destinationCidrBlock
    ensures var c := Run(remote, answers).calls;
      ParseDocument(Run(remote, answers).outcome.value)
      == Some(Document(Attachment(c[0].transitGatewayId, c[0].vpcId, c[0].subnetIds),
                       Route(c[1].routeTableId, c[1].destinationCidrBlock, c[1].transitGatewayId)))
  {
    var c := Run(remote, answers).calls;
    RenderRoundTrip(c[0].transitGatewayId, c[0].vpcId, c[0].subnetIds, c[1].routeTableId, c[1].destinationCidrBlock);
  }

  /** The first three replies resolve: the source VPC, the gateway and a non-empty list of
      the source VPC's subnets. */
  predicate AttachmentRepliesResolve(remote: Remote, answers: Answers)
  {
    && 0 <= answers.vpc < |remote.vpcs|
    && 0 <= answers.transitGateway < |remote.transitGateways|
    && |answers.subnets| > 0
    && AllInRange(remote.subnetsOf(remote.vpcs[answers.vpc].vpcId), answers.subnets)
  }

  /** The attachment the first three replies select. */
  function SelectedAttachment(remote: Remote, answers: Answers): Call
    requires AttachmentRepliesResolve(remote, answers)
  {
    var source := remote.vpcs[answers.vpc].vpcId;
    CreateAttachment(remote.transitGateways[answers.transitGateway].transitGatewayId, source,
                     ChooseSubnetIds(remote.subnetsOf(source), answers.subnets).value)
  }

  /** All six replies resolve, the destination reply against the filtered candidates. */
  predicate RouteRepliesResolve(remote: Remote, answers: Answers)
  {
    && AttachmentRepliesResolve(remote, answers)
    && var source := remote.vpcs[answers.vpc].vpcId;
       var candidates := ExcludeVpc(remote.vpcs, source);
       && 0 <= answers.destinationVpc < |candidates|
       && 0 <= answers.destinationSubnet < |remote.subnetsOf(candidates[answers.destinationVpc].vpcId)|
       && 0 <= answers.routeTable < |remote.routeTablesOf(source)|
  }

  /** The route the six replies select. */
  function SelectedRoute(remote: Remote, answers: Answers): Call
    requires RouteRepliesResolve(remote, answers)
  {
    var source := remote.vpcs[answers.vpc].vpcId;
    var destination := ExcludeVpc(remote.vpcs, source)[answers.destinationVpc].vpcId;
    CreateRoute(remote.routeTablesOf(source)[answers.routeTable].routeTableId,
                remote.subnetsOf(destination)[answers.destinationSubnet].cidrBlock,
                remote.transitGateways[answers.transitGateway].transitGatewayId)
  }

  /** When the first three replies resolve, the attachment they select is issued, whatever
      follows; if the service rejects it, the run stops there with only that call issued. */
  lemma AttachmentIssued(remote: Remote, answers: Answers)
    requires AttachmentRepliesResolve(remote, answers)
    ensures |Run(remote, answers).calls| >= 1
    ensures Run(remote, answers).calls[0] == SelectedAttachment(remote, answers)
    ensures remote.attachmentRejected ==>
      Run(remote, answers) == Report([SelectedAttachment(remote, answers)], Err(MutationFailed(AttachVpc)))
  {
    assert Resolve(remote.vpcs, answers.vpc).Ok?;
    assert Resolve(remote.transitGateways, answers.transitGateway).Ok?;
  }

  /** When all six replies resolve and the attachment is accepted, the selected route is
      issued right after the attachment, whatever the service then answers. */
  lemma RouteIssued(remote: Remote, answers: Answers)
    requires RouteRepliesResolve(remote, answers) && !remote.attachmentRejected
    ensures |Run(remote, answers).calls| >= 2
    ensures Run(remote, answers).calls[..2] == [SelectedAttachment(remote, answers), SelectedRoute(remote, answers)]
  {
    assert Resolve(remote.vpcs, answers.vpc).Ok?;
    assert Resolve(remote.transitGateways, answers.transitGateway).Ok?;
  }

  /** The converse of `AttachmentFromListings` and `RouteFromListings`: when every reply is
      in range of the listing it is resolved against and the service accepts both mutations,
      the run issues the selected attachment, the selected route and the document rendered
      from the five selected values, and succeeds with that document. */
  lemma RunSucceeds(remote: Remote, answers: Answers)
    requires RouteRepliesResolve(remote, answers)
    requires !remote.attachmentRejected && !remote.routeRejected
    ensures var source := remote.vpcs[answers.vpc].vpcId;
      var destination := ExcludeVpc(remote.vpcs, source)[answers.destinationVpc].vpcId;
      var document := Render(remote.transitGateways[answers.transitGateway].transitGatewayId,
                             source,
                             ChooseSubnetIds(remote.subnetsOf(source), answers.subnets).value,
                             remote.routeTablesOf(source)[answers.routeTable].routeTableId,
                             remote.subnetsOf(destination)[answers.destinationSubnet].cidrBlock);
      Run(remote, answers)
      == Report([SelectedAttachment(remote, answers), SelectedRoute(remote, answers), WriteDocument(document)],
                Ok(document))
  {
    assert Resolve(remote.vpcs, answers.vpc).Ok?;
    assert Resolve(remote.transitGateways, answers.transitGateway).Ok?;
  }

  /** A reply out of range stops the run at its own step, with the reply and the length of
      the listing it was resolved against, after exactly the calls issued before that step.
      Each clause assumes only that the earlier replies resolve and the attachment, when it
      comes before, is accepted. */
  lemma StopsAtFailingStep(remote: Remote, answers: Answers)
    ensures !(0 <= answers.vpc < |remote.vpcs|) ==>
      Run(remote, answers) == Report([], Err(SelectionFailed(ChooseVpc, OutOfRange(answers.vpc, |remote.vpcs|))))
    ensures 0 <= answers.vpc < |remote.vpcs| && !(0 <= answers.transitGateway < |remote.transitGateways|) ==>
      Run(remote, answers)
      == Report([], Err(SelectionFailed(ChooseTransitGateway, OutOfRange(answers.transitGateway, |remote.transitGateways|))))
    ensures 0 <= answers.vpc < |remote.vpcs| && 0 <= answers.transitGateway < |remote.transitGateways| ==>
      var subnets := remote.subnetsOf(remote.vpcs[answers.vpc].vpcId);
      !(|answers.subnets| > 0 && AllInRange(subnets, answers.subnets)) ==>
      Run(remote, answers)
      == Report([], Err(SelectionFailed(ChooseSubnets, ResolveMany(subnets, answers.subnets).error)))
    ensures AttachmentRepliesResolve(remote, answers) && !remote.attachmentRejected ==>
      var source := remote.vpcs[answers.vpc].vpcId;
      var candidates := ExcludeVpc(remote.vpcs, source);
      var attach := SelectedAttachment(remote, answers);
      && (!(0 <= answers.destinationVpc < |candidates|) ==>
            Run(remote, answers)
            == Report([attach], Err(SelectionFailed(ChooseDestinationVpc, OutOfRange(answers.destinationVpc, |candidates|)))))
      && (0 <= answers.destinationVpc < |candidates| ==>
            var subnets := remote.subnetsOf(candidates[answers.destinationVpc].vpcId);
            !(0 <= answers.destinationSubnet < |subnets|) ==>
            Run(remote, answers)
            == Report([attach], Err(SelectionFailed(ChooseDestinationSubnet, OutOfRange(answers.destinationSubnet, |subnets|)))))
      && (0 <= answers.destinationVpc < |candidates| &&
          0 <= answers.destinationSubnet < |remote.subnetsOf(candidates[answers.destinationVpc].vpcId)| &&
          !(0 <= answers.routeTable < |remote.routeTablesOf(source)|) ==>
            Run(remote, answers)
            == Report([attach], Err(SelectionFailed(ChooseRouteTable,
                                                    OutOfRange(answers.routeTable, |remote.routeTablesOf(source)|)))))
  {
    if AttachmentRepliesResolve(remote, answers) {
      assert Resolve(remote.vpcs, answers.vpc).Ok?;
      assert Resolve(remote.transitGateways, answers.transitGateway).Ok?;
    }
  }

  /** A reply out of range before the attachment step stops the run with nothing created. */
  lemma OneGatewayIndexOne(remote: Remote, answers: Answers)
    requires 0 <= answers.vpc < |remote.vpcs|
    requires |remote.transitGateways| == 1 && answers.transitGateway == 1
    ensures Run(remote, answers) == Report([], Err(SelectionFailed(ChooseTransitGateway, OutOfRange(1, 1))))
  {
  }

  /** When every reply resolves and the attachment is accepted but the route is rejected, the
      attachment stays issued, the run reports the route step, and no document is written. */
  lemma RouteRejectedAfterAttachment(remote: Remote, answers: Answers)
    requires RouteRepliesResolve(remote, answers)
    requires !remote.attachmentRejected && remote.routeRejected
    ensures Run(remote, answers)
      == Report([SelectedAttachment(remote, answers), SelectedRoute(remote, answers)],
                Err(MutationFailed(UpdateRouteTable)))
  {
    assert Resolve(remote.vpcs, answers.vpc).Ok?;
    assert Resolve(remote.transitGateways, answers.transitGateway).Ok?;
  }

  /** Two VPCs with one subnet each, one gateway, one route table in vpc-1. */
  function TwoVpcInventory(): Remote
  {
    Remote(
      [Vpc("vpc-1", "10.0.0.0/16", "available"), Vpc("vpc-2", "10.1.0.0/16", "available")],
      [TransitGateway("tgw-1", "hub", "available")],
      id => if id == "vpc-1" then [Subnet("subnet-a", "10.0.1.0/24", "us-west-2a")]
            else [Subnet("subnet-b", "10.1.0.0/16", "us-west-2b")],
      id => if id == "vpc-1" then [RouteTable("rtb-1")] else [],
      false, false)
  }

  /** Attaching vpc-1 to tgw-1 through subnet-a and routing from rtb-1 to vpc-2's block
      issues the two mutations with those values, then writes the document rendered from
      exactly those five values. */
  lemma HappyPath()
    ensures Run(TwoVpcInventory(), Answers(0, 0, [0], 0, 0, 0))
            == Report([CreateAttachment("tgw-1", "vpc-1", ["subnet-a"]),
                       CreateRoute("rtb-1", "10.1.0.0/16", "tgw-1"),
                       WriteDocument(Render("tgw-1", "vpc-1", ["subnet-a"], "rtb-1", "10.1.0.0/16"))],
                      Ok(Render("tgw-1", "vpc-1", ["subnet-a"], "rtb-1", "10.1.0.0/16")))
  {
    var remote := TwoVpcInventory();
    assert ChooseSubnetIds(remote.subnetsOf("vpc-1"), [0]) == Ok(["subnet-a"]) by {
      var chosen := ChooseSubnetIds(remote.subnetsOf("vpc-1"), [0]);
      assert remote.subnetsOf("vpc-1") == [Subnet("subnet-a", "10.0.1.0/24", "us-west-2a")];
      assert AllInRange(remote.subnetsOf("vpc-1"), [0]);
      assert chosen.value == ["subnet-a"];
    }
    assert ExcludeVpc(remote.vpcs, "vpc-1") == [Vpc("vpc-2", "10.1.0.0/16", "available")];
  }
}

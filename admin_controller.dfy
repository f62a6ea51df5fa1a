/** The administration endpoints of the simulation: the status view and the
    restart, stop and start actions, each a call sequence on the price
    service wrapped so that an exception becomes a status 500 reply. */
module Admin {
  import opened Config
  import opened Control
  import opened PriceService

  /** The status reply of the simulation-config endpoint. */
  datatype SimulationStatus = SimulationStatus(
    updateIntervalSeconds: int,
    maxPriceChangePercent: real,
    minPriceChangePercent: real,
    minPrice: real,
    isEnabled: bool)

  /** The reply of an action: 200 with a message, or a status code with a message. */
  datatype ActionResult = Ok(message: string) | StatusCode(code: int, message: string)

  /** The status view: the four settings of the snapshot, and the live
      running flag in place of the configured `IsEnabled`. */
  function StatusOf(snapshot: SimulationConfig, isRunning: bool): (st: SimulationStatus)
    ensures st.isEnabled == isRunning
    ensures st.updateIntervalSeconds == snapshot.updateIntervalSeconds
    ensures st.maxPriceChangePercent == snapshot.maxPriceChangePercent
    ensures st.minPriceChangePercent == snapshot.minPriceChangePercent
    ensures st.minPrice == snapshot.minPrice
  {
    SimulationStatus(snapshot.updateIntervalSeconds, snapshot.maxPriceChangePercent,
      snapshot.minPriceChangePercent, snapshot.minPrice, isRunning)
  }

  /** The reply of an action: success unless the service call threw. */
  function Reply(c: Completion, success: string, failure: string): (r: ActionResult)
    ensures r.Ok? <==> c == Completed
    ensures r.Ok? ==> r.message == success
    ensures r.StatusCode? ==> r.code == 500 && r.message == failure
  {
    if c == Completed then Ok(success) else StatusCode(500, failure)
  }

  const RestartOk: string := "Simulation redémarrée avec succès"
  const RestartFailed: string := "Erreur lors du redémarrage"
  const StopOk: string := "Simulation arrêtée"
  const StopFailed: string := "Erreur lors de l'arrêt"
  const StartOk: string := "Simulation démarrée"
  const StartFailed: string := "Erreur lors du démarrage"

  class AdminController {
    /** The settings as read for this request; they may differ from the
        ones the service captured when it was built. */
    const snapshot: SimulationConfig
    const service: StockPriceService

    constructor (snapshot: SimulationConfig, service: StockPriceService)
      ensures this.snapshot == snapshot && this.service == service
    {
      this.snapshot := snapshot;
      this.service := service;
    }

    method GetSimulationConfig() returns (st: SimulationStatus)
      ensures st == StatusOf(snapshot, service.running)
    {
      var isRunning := service.IsRunning();
      st := StatusOf(snapshot, isRunning);
    }

    /** Stop, then start. Afterwards the service runs exactly when its own
        configuration is enabled, whatever it did before. */
    method RestartSimulation() returns (result: ActionResult)
      requires service.Valid()
      modifies service`running, service`timer, service`timersCreated
      ensures service.Valid()
      ensures service.State() == StartStep(StopStep(old(service.State())), service.config).state
      ensures service.running == service.config.isEnabled
      ensures result == Reply(StartStep(StopStep(old(service.State())), service.config).completion,
                              RestartOk, RestartFailed)
    {
      service.StopSimulation();
      var c := service.StartSimulation();
      result := Reply(c, RestartOk, RestartFailed);
    }

    method StopSimulation() returns (result: ActionResult)
      requires service.Valid()
      modifies service`running, service`timer
      ensures service.Valid()
      ensures service.State() == StopStep(old(service.State()))
      ensures result == Ok(StopOk)
    {
      service.StopSimulation();
      result := Reply(Completed, StopOk, StopFailed);
    }

    /** Reports success whenever the service call returns, including when
        it did nothing because the engine was running or disabled. */
    method StartSimulation() returns (result: ActionResult)
      requires service.Valid()
      modifies service`running, service`timer, service`timersCreated
      ensures service.Valid()
      ensures service.State() == StartStep(old(service.State()), service.config).state
      ensures result == Reply(StartStep(old(service.State()), service.config).completion, StartOk, StartFailed)
      ensures !StartTakesEffect(old(service.State()), service.config) ==>
        service.State() == old(service.State()) && result == Ok(StartOk)
    {
      var c := service.StartSimulation();
      result := Reply(c, StartOk, StartFailed);
    }
  }
}

/**
 * The root page (`RenderNodeApp`): a status line, the device's `menu`
 * state, the player record, and the buttons each menu state offers.
 */
module App {
  import opened Values
  import opened Telemetry
  import opened Connection
  import opened Presence

  /** A rendered button: its caption and the page it leads to. */
  datatype Button = Button(caption: string, target: string)

  const Travel: Button := Button("OTW....", "world-map")
  const PikachuGame: Button := Button("Pikachu", "pikachu")
  const CubeGame: Button := Button("Cube Character Sim", "cube-character-sim")

  /**
   * `{menu == 1 && ...}{menu == 2 && ...}`: loose equality on a number is
   * numeric equality, and `null` equals neither 1 nor 2.
   */
  function Buttons(menu: Reading): (bs: seq<Button>)
    ensures Travel in bs <==> menu == Num(1.0)
    ensures PikachuGame in bs <==> menu == Num(2.0)
    ensures CubeGame in bs <==> menu == Num(2.0)
    ensures forall b :: b in bs ==> b in {Travel, PikachuGame, CubeGame}
  {
    (if menu == Num(1.0) then [Travel] else []) +
    (if menu == Num(2.0) then [PikachuGame, CubeGame] else [])
  }

  /** The three documented states: 0 = menu shows nothing, 1 = game shows travel, 2 = server mode shows both games. */
  lemma ButtonsByMenu()
    ensures Buttons(Num(0.0)) == []
    ensures Buttons(Num(1.0)) == [Travel]
    ensures Buttons(Num(2.0)) == [PikachuGame, CubeGame]
    ensures Buttons(Null) == []
  {
  }

  /** The travel button and the game buttons are never on screen together. */
  lemma TravelExcludesGames(menu: Reading)
    ensures !(Travel in Buttons(menu) && PikachuGame in Buttons(menu))
  {
  }

  /** The buttons on screen after a run of frames depend only on the last `state` received, or on the initial 0. */
  lemma ButtonsFollowLastState(p: PlayerRecord, ms: seq<Message>)
    ensures Buttons(ReceiveAll(Shown(p, Num(0.0)), ms).menu) ==
            match LastState(ms) case None => [] case Some(v) => Buttons(v)
  {
    MenuFromLastState(Shown(p, Num(0.0)), ms);
    ButtonsByMenu();
  }

  class RenderNodeApp {
    var status: Status
    var menu: Reading
    var player: PlayerRecord

    function ShownOf(): Shown
      reads this
    {
      Shown(player, menu)
    }

    /** `useState("Initializing...")`, `useState(0)`, `useRef({ x: 2, y: 2, dirX: 1, dirY: 0 })`. */
    constructor ()
      ensures status == Initializing && menu == Num(0.0) && player == StartPlayer
    {
      status, menu, player := Initializing, Num(0.0), StartPlayer;
    }

    /** The `.catch` of the fetch of `/`. */
    method OnLoadFailed()
      modifies this
      ensures status == After(LoadFailed) && ShownOf() == old(ShownOf())
    {
      status := DataLoadFailed;
    }

    method OnOpen()
      modifies this
      ensures status == After(Opened) && ShownOf() == old(ShownOf())
    {
      status := Live;
    }

    method OnClose()
      modifies this
      ensures status == After(Closed) && ShownOf() == old(ShownOf())
    {
      status := Disconnected;
    }

    /** `socket.onmessage`: the same body as the map page's, without the redraw; the `catch` is empty. */
    method OnMessage(m: Message)
      modifies this
      ensures ShownOf() == Receive(old(ShownOf()), m)
      ensures status == old(status)
    {
      if !m.Object? {
        return;
      }
      var data := m.frame;
      player := PlayerRecord(data.x, data.y, data.dirX, data.dirY);
      if !data.state.Undefined? {
        menu := if menu != data.state then data.state else menu;
      }
    }
  }
}

/** The adder switch: its FIFOs, its configuration, and its cycle, step by step. */
module Adders {
  import opened Prelude
  import opened Signals
  import opened Switches

  class ASwitch {
    const num: nat
    // configuration
    var mode: AdderConfig
    var fwDirection: Option<FwDirection>
    var leftEnabled: bool
    var rightEnabled: bool
    var forwardToMemory: bool
    // FIFOs
    var inputLeft: seq<Pkg>
    var inputRight: seq<Pkg>
    var inputFw: seq<Pkg>
    var outputPsum: seq<Pkg>
    var outputFw: seq<Pkg>

    constructor (num: nat)
      ensures this.num == num && Cfg() == Config(Add21, None, false, false, false)
      ensures Fifos() == NO_QUEUES && Drained()
    {
      this.num := num;
      mode, fwDirection := Add21, None;
      leftEnabled, rightEnabled, forwardToMemory := false, false, false;
      inputLeft, inputRight, inputFw, outputPsum, outputFw := [], [], [], [], [];
    }

    ghost function Cfg(): Config
      reads this`mode, this`fwDirection, this`leftEnabled, this`rightEnabled, this`forwardToMemory
    {
      Config(mode, fwDirection, leftEnabled, rightEnabled, forwardToMemory)
    }

    ghost function Fifos(): Queues
      reads this`inputLeft, this`inputRight, this`inputFw
    {
      Queues(inputLeft, inputRight, inputFw)
    }

    /** Nothing is waiting in the output FIFOs. */
    ghost predicate Drained()
      reads this`outputPsum, this`outputFw
    {
      outputPsum == [] && outputFw == []
    }

    /** The switch has routed with result r, and has not sent yet. */
    ghost predicate HasRouted(r: Routed)
      reads this
    {
      Fifos() == r.queues && outputPsum == r.up && outputFw == r.side
    }

    method Configure(cfg: Config)
      modifies this`mode, this`fwDirection, this`leftEnabled, this`rightEnabled, this`forwardToMemory
      ensures Cfg() == cfg
    {
      mode, fwDirection := cfg.mode, cfg.fw;
      leftEnabled, rightEnabled, forwardToMemory := cfg.left, cfg.right, cfg.memory;
    }

    /** The result of a 2:1 or 1:1 step goes to the link if there is one, else up. */
    method Output(p: Pkg)
      modifies this`outputPsum, this`outputFw
      ensures fwDirection.Some? ==> outputFw == old(outputFw) + [p] && outputPsum == old(outputPsum)
      ensures fwDirection.None? ==> outputPsum == old(outputPsum) + [p] && outputFw == old(outputFw)
    {
      if fwDirection.Some? {
        outputFw := outputFw + [p];
      } else {
        outputPsum := outputPsum + [p];
      }
    }

    method Route21()
      requires Drained() && Switches.Route21(Cfg(), Fifos()).ok
      modifies this`inputLeft, this`inputRight, this`outputPsum, this`outputFw
      ensures HasRouted(Switches.Route21(Cfg(), old(Fifos())))
      ensures old(inputLeft) != [] && old(inputRight) != [] ==>
        var pl, pr := old(inputLeft)[0], old(inputRight)[0];
        && leftEnabled && rightEnabled && pl.vn == pr.vn
        && (if fwDirection.Some? then outputFw else outputPsum) == [Package(pl.vn, pl.data + pr.data)]
    {
      if inputLeft != [] && inputRight == [] {
        if !rightEnabled {
          var p := inputLeft[0];
          inputLeft := inputLeft[1..];
          Output(p);
        }
      }
      if inputRight != [] && inputLeft == [] {
        if !leftEnabled {
          var p := inputRight[0];
          inputRight := inputRight[1..];
          Output(p);
        }
      }
      if inputLeft != [] && inputRight != [] {
        assert leftEnabled;
        assert rightEnabled;
        var pl, pr := inputLeft[0], inputRight[0];
        inputLeft, inputRight := inputLeft[1..], inputRight[1..];
        assert pl.vn == pr.vn;
        Output(Package(pl.vn, pl.data + pr.data));
      }
    }

    method Route31()
      requires Drained() && Switches.Route31(Cfg(), Fifos()).ok
      modifies this`inputLeft, this`inputRight, this`inputFw, this`outputPsum
      ensures HasRouted(Switches.Route31(Cfg(), old(Fifos())))
      ensures leftEnabled && rightEnabled && fwDirection == Some(Receive)
      ensures old(inputLeft) != [] && old(inputRight) != [] && old(inputFw) != [] ==>
        var pl, pr, pf := old(inputLeft)[0], old(inputRight)[0], old(inputFw)[0];
        pl.vn == pr.vn == pf.vn && outputPsum == [Package(pl.vn, pl.data + pr.data + pf.data)]
    {
      assert leftEnabled;
      assert rightEnabled;
      assert fwDirection == Some(Receive);
      if inputLeft != [] && inputRight != [] && inputFw != [] {
        var pl, pr, pf := inputLeft[0], inputRight[0], inputFw[0];
        inputLeft, inputRight, inputFw := inputLeft[1..], inputRight[1..], inputFw[1..];
        assert pl.vn == pr.vn;
        assert pr.vn == pf.vn;
        outputPsum := outputPsum + [Package(pl.vn, pl.data + pr.data + pf.data)];
      }
    }

    method Route11PlusFw11()
      requires Drained() && Switches.Route11(Cfg(), num, Fifos()).ok
      modifies this`inputLeft, this`inputRight, this`outputPsum, this`outputFw
      ensures HasRouted(Switches.Route11(Cfg(), num, old(Fifos())))
      ensures leftEnabled && rightEnabled
      ensures var (up, side) := if num % 2 ==
        0 then (old(inputRight), old(inputLeft)) else (old(inputLeft), old(inputRight));
        && (up != [] ==> outputPsum == [up[0]] && (num % 2 == 0 ==> up[0].vn != 0))
        && (side != [] ==> outputFw == [side[0]])
    {
      assert leftEnabled;
      assert rightEnabled;
      if num % 2 == 0 {
        if inputLeft != [] {
          outputFw := outputFw + [inputLeft[0]];
          inputLeft := inputLeft[1..];
        }
        if inputRight != [] {
          assert inputRight[0].vn != 0;
          outputPsum := outputPsum + [inputRight[0]];
          inputRight := inputRight[1..];
        }
      } else {
        if inputLeft != [] {
          outputPsum := outputPsum + [inputLeft[0]];
          inputLeft := inputLeft[1..];
        }
        if inputRight != [] {
          outputFw := outputFw + [inputRight[0]];
          inputRight := inputRight[1..];
        }
      }
    }

    method RouteFw22()
      requires Drained()
      modifies this`inputLeft, this`inputRight, this`outputPsum
      ensures HasRouted(Switches.Route22(old(Fifos())))
      ensures inputLeft == inputRight == [] && outputPsum == old(inputLeft) + old(inputRight)
    {
      while inputLeft != []
        invariant outputPsum + inputLeft == old(inputLeft) && inputRight == old(inputRight)
        decreases |inputLeft|
      {
        outputPsum := outputPsum + [inputLeft[0]];
        inputLeft := inputLeft[1..];
      }
      while inputRight != []
        invariant outputPsum + inputRight == old(inputLeft) + old(inputRight) && inputLeft == []
        decreases |inputRight|
      {
        outputPsum := outputPsum + [inputRight[0]];
        inputRight := inputRight[1..];
      }
    }

    /** Takes what is pending on the connections; the link only when it is set to receive. */
    method TakePending(left: seq<Pkg>, right: seq<Pkg>, link: seq<Pkg>)
      requires fwDirection == Some(Receive) ==> |link| <= 1
      modifies this`inputLeft, this`inputRight, this`inputFw
      ensures inputLeft == old(inputLeft) + left && inputRight == old(inputRight) + right
      ensures inputFw == if fwDirection == Some(Receive) then old(inputFw) + link else old(inputFw)
    {
      if left != [] {
        inputLeft := inputLeft + left;
      }
      if right != [] {
        inputRight := inputRight + right;
      }
      if fwDirection == Some(Receive) {
        if link != [] {
          assert |link| == 1;
          inputFw := inputFw + link;
        }
      }
    }

    /** One cycle; the two results are what goes out upwards (or to memory) and sideways. */
    method Cycle(left: seq<Pkg>, right: seq<Pkg>, link: seq<Pkg>) returns (up: seq<Pkg>, side: seq<Pkg>)
      requires Drained() && (fwDirection == Some(Receive) ==> |link| <= 1)
      requires Route(Cfg(), num, Taken(left, right, link)).ok
      modifies this`inputLeft, this`inputRight, this`inputFw, this`outputPsum, this`outputFw
      ensures Drained()
      ensures Route(Cfg(), num, old(Taken(left, right, link))) == Routed(Fifos(), up, side, true)
    {
      hide Switches.Route21, Switches.Route31, Switches.Route11, Switches.Route22;
      ghost var r := Route(Cfg(), num, Taken(left, right, link));
      TakePending(left, right, link);
      match mode {
        case Add21 => Route21();
        case Add31 => Route31();
        case Add11PlusFw11 => Route11PlusFw11();
        case Fw22 => RouteFw22();
        case Fold => assert false;
      }
      assert HasRouted(r);
      if outputFw != [] {
        assert fwDirection == Some(Send);
      }
      up, side := outputPsum, outputFw;
      outputPsum, outputFw := [], [];
    }

    /** The FIFOs once the pending packages are taken. */
    ghost function Taken(left: seq<Pkg>, right: seq<Pkg>, link: seq<Pkg>): Queues
      reads this
    {
      Queues(inputLeft + left, inputRight + right,
             if fwDirection == Some(Receive) then inputFw + link else inputFw)
    }
  }
}

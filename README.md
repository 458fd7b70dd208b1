# hw_oop in Dafny

A verified model of three small object-modelling exercises:

- **Chess** (`Chess.dfy`): a figure has a variant (pawn, knight, bishop,
  rook, queen, king), a colour and a square. Its colour can be toggled.
  Its square can be changed, with a bounds check. Each variant decides
  whether it could move to a target square on the 8x8 board: from the
  coordinate differences, and for the pawn also from its colour and its own
  row. A filter keeps, in order, the figures of a list that can
  reach a target.
- **Students** (`Students.dfy`): students carry grade lists that grow in
  place. Groups carry member lists that grow and shrink in place. Students
  are ranked by their average grade, which is 0 for an empty list. Groups
  are ranked by the average of their best student. The best student and
  the group with the best student are what Python's `max` returns: the
  first element that no other element exceeds, or nothing for an empty list.
- **Phones** (`Phones.dfy`): each phone counts the calls it takes. A loop
  adds up the counters of a list of phones.

`Wrappers.dfy` holds the `Option` and `Outcome` datatypes. They stand for
Python's `None` and for an operation that may raise.

The figure, student, group and phone objects are Dafny classes. Their
mutators (`change_color`, `change_position`, `add_grade`, `add_student`,
`remove_student`, `set_number`, `take_call`) are methods with `modifies`
clauses. Each method states the whole new state in terms of the old one.
The legality rules, averages, orderings, `max` selections and the filter
are functions. The call-count total keeps the Python code's accumulator loop.

The demonstration's result is pawn, bishop: the queen at (4, 1) is excluded
because its offset to (5, 3) is (1, 2), while its move to (6, 3) is diagonal
and legal (`Chess.DemoFilter`, `Chess.ExampleMoves`). The constructor stores
any square; only `change_position` checks the bounds.

## Model

| member | source | states |
|---|---|---|
| `Chess.Opposite` | chess.py:6-10 | the toggled colour always differs from the old one, so with two colours black and white swap |
| `Chess.OppositeInvolutive` | chess.py:6-10 | toggling twice gives back the original colour |
| `Chess.Figure.constructor` | chess.py:2-4 | stores variant, colour and square exactly as given, with no validation |
| `Chess.Figure.ChangeColor` | chess.py:6-10 | the colour becomes the opposite of the old one; the square is unchanged |
| `Chess.Figure.ChangePosition` | chess.py:12-26 | succeeds exactly for an on-board target (both coordinates in 1..8, the test `_is_valid_position` also makes) and then holds it; an off-board target fails with OutOfBounds and leaves square and colour unchanged |
| `Chess.IsValidPosition` | chess.py:22-26 | `_is_valid_position` on a coordinate pair: true exactly when column and row both lie in 1..8 |
| `Chess.CanMove` | chess.py:33-96 | `can_move_to` of each variant: false for an off-board target, otherwise the variant's own rule (`PawnRule`, `KnightRule`, `BishopRule`, `RookRule`, `QueenRule`, `KingRule`) on the offset from the figure's square |
| `Chess.Figure.CanMoveTo` | chess.py:28-96 | `can_move_to` dispatched on the figure's variant, read from its current colour and square; as a function it changes no field |
| `Chess.OffBoardNeverLegal` | chess.py:22-96 | every variant, whatever its colour and square, rejects any target outside the board |
| `Chess.PawnTargets` | chess.py:37-46 | a pawn reaches exactly the on-board squares among: one row forward, or two rows forward from its start row (row 2 for white moving up, row 7 for black moving down); never sideways |
| `Chess.PawnColorsMirror` | chess.py:37-46 | a white pawn's move is legal exactly when the black pawn's move mirrored top to bottom (row r to 9 - r) is legal |
| `Chess.KnightTargets` | chess.py:54-56 | a knight reaches exactly the on-board squares among its eight (1,2)/(2,1) jumps |
| `Chess.KnightNeverStays` | chess.py:54-56 | a knight never accepts its own square |
| `Chess.BishopDiagonals` | chess.py:64-66 | a bishop reaches exactly the on-board squares on the two diagonals through its square, its own square included |
| `Chess.QueenIsBishopOrRook` | chess.py:74-86 | a queen move is legal exactly when a bishop or rook move from the same square is |
| `Chess.KingTargets` | chess.py:94-96 | a king reaches exactly the on-board squares among the nine around and including its own |
| `Chess.KingWithinQueen` | chess.py:84-96 | every target a king can reach, a queen on the same square can reach too |
| `Chess.StayingPut` | chess.py:33-96 | the own square is accepted exactly by bishop, rook, queen and king, and only when it is on the board |
| `Chess.OnlyPawnSeesColor` | chess.py:33-96 | every variant but the pawn gives the same answer for either colour |
| `Chess.SymmetricUnlessPawn` | chess.py:49-96 | for every variant but the pawn, a move between two board squares is legal in one direction exactly when it is legal in the other |
| `Chess.ExampleMoves` | chess.py:33-96 | worked cases: a white pawn at (5,2) reaches (5,3) and (5,4) but not (5,5) or (4,3); a black pawn at (5,7) reaches (5,6) and (5,5) but not (5,4); similar cases for knight, bishop, rook, queen and king |
| `Chess.FiguresThatCanMove` | chess.py:99-100 | the result is no longer than the input, and each of its elements is a figure of the input that can move to the target |
| `Chess.FilterIsStableSelection` | chess.py:99-100 | the result is the input read at a strictly increasing list of indices, and these are exactly the indices of the figures that can move |
| `Chess.FilterKeepsDuplicates` | chess.py:99-100 | every figure that can move occurs in the result as often as in the input; every other figure does not occur at all |
| `Chess.DemoFilter` | chess.py:103-113 | for the six demonstration figures and target (5,3), the filter returns exactly the pawn and the bishop, in that order |
| `Chess.DemoFiguresThatCanMove` | chess.py:103-117 | the demonstration reports (pawn, (5,2)) and (bishop, (3,1)), in that order |
| `Students.Mean` | students.py:10-14 | the average is 0 for an empty grade list; otherwise it times the number of grades equals the sum of the grades |
| `Students.SumBounds` | students.py:12 | a sum of n grades that all lie between lo and hi lies between lo*n and hi*n |
| `Students.MeanBounds` | students.py:10-14 | the average of a non-empty grade list lies between any lower and upper bound of its grades |
| `Students.MeanAfterAppend` | students.py:7-14 | appending a grade raises the total of the grades (average times count) by exactly that grade |
| `Students.Student.constructor` | students.py:2-5 | stores name, age and grades exactly as given |
| `Students.Student.AddGrade` | students.py:7-8 | the grades become the old grades followed by the new grade |
| `Students.Student.AverageGrade` | students.py:10-14 | 0 for a student without grades; otherwise the average times the number of grades equals their sum |
| `Students.Student.Less` | students.py:16-17 | one student is less than another exactly when its average grade is smaller |
| `Students.StudentOrder` | students.py:16-17 | `<` on students, by average grade, is irreflexive, asymmetric and transitive, and two students are tied exactly when their averages are equal |
| `Students.FirstMaxUnique` | students.py:34-35 | at most one position of a list is the first maximal one, so "the first maximal element" is well defined |
| `Students.MaxIndexFrom` | students.py:34-35 | the left fold of `max`, which replaces the kept element only by a strictly greater one, ends at the first maximal position |
| `Students.FirstMaxIndex` | students.py:34-35 | `max` over a non-empty list picks the first maximal position |
| `Students.FirstIndex` | students.py:31-32 | returns the position of the first occurrence of the element, compared by identity: it holds the element, and no earlier position does |
| `Students.RemoveFirst` | students.py:31-32 | `list.remove` drops exactly the first occurrence: the result is the part before it followed by the part after it |
| `Students.RemoveFirstMultiset` | students.py:31-32 | removing takes away exactly one copy of the element and keeps every other element |
| `Students.Group.constructor` | students.py:24-26 | a new group has the given name and no students |
| `Students.Group.AddStudent` | students.py:28-29 | the members become the old members followed by the new student |
| `Students.Group.RemoveStudent` | students.py:31-32 | succeeds exactly when the student is a member and then removes its first occurrence, keeping the order of the rest; otherwise fails with NotInGroup and changes nothing |
| `Students.Group.BestStudent` | students.py:34-35 | none exactly for an empty group; otherwise the member at the first position whose average no member exceeds |
| `Students.Group.BestStudentAverage` | students.py:37-39 | 0 for an empty group; otherwise no member's average exceeds it and some member's average equals it |
| `Students.BestStudentByLess` | students.py:34-35 | in terms of the student `<`: no member is greater than the best student, and every member before its first occurrence is less |
| `Students.Group.Less` | students.py:41-42 | one group is less than another exactly when its best student average is smaller |
| `Students.GroupOrder` | students.py:41-42 | `<` on groups, by best average, is irreflexive, asymmetric and transitive, and two groups are tied exactly when their best averages are equal |
| `Students.GroupWithBestStudent` | students.py:48-49 | none exactly for an empty list of groups; otherwise the group at the first position whose best average no group exceeds |
| `Students.GroupWithBestStudentByLess` | students.py:48-49 | in terms of the group `<`: no group is greater than the chosen one, and every group before its first occurrence is less |
| `Students.DemoRanking` | students.py:52-67 | for the two demonstration groups (best averages 4.75 and 4.25) the first group is chosen |
| `Students.DemoBestGroup` | students.py:52-68 | the demonstration picks the group named "RPO 9" |
| `Phones.Phone.constructor` | phone.py:1-3 | a fresh phone has no number and a call count of 0 |
| `Phones.Phone.SetNumber` | phone.py:5-6 | sets the number and leaves the call count unchanged |
| `Phones.Phone.GetCallCount` | phone.py:8-9 | returns the phone's counter and, having no modifies clause, changes nothing |
| `Phones.Phone.TakeCall` | phone.py:11-12 | this phone's counter grows by exactly one and its number is unchanged; it may modify only this phone, so no other phone's count moves |
| `Phones.TotalCallCount` | phone.py:36-40 | the accumulator loop returns the sum of the counters of the listed phones, 0 for an empty list, and modifies no phone |
| `Phones.SumOfCountsAppend` | phone.py:36-40 | the total over two lists joined is the sum of their totals |
| `Phones.CountWithinTotal` | phone.py:36-40 | no listed phone has taken more calls than the list in total |
| `Phones.DemoPhones` | phone.py:15-34 | the demonstration phones hold the numbers +42077554433, +42066234567 and +42077543210, and count 3, 2 and 5 calls |
| `Phones.DemoCallSequence` | phone.py:15-45 | after the demonstration calls the three phones count 3, 2 and 5 calls, and the total is 10 |

## Left out

- Printing: the `print` calls, the f-string formatting and both `__repr__` methods are output only. The demonstrations return the data they would print.
- The shape checks on positions (`type(...) == tuple`, `len == 2`), the "Invalid position format" error they lead to, and the TypeError a non-numeric coordinate raises: positions are integer pairs here. Python also accepts float coordinates (`change_position((2.5, 3))` stores the pair, and `can_move_to` compares floats); those fall outside the model's integer squares.
- The abstract `Figure.can_move_to`, which raises NotImplementedError: the variants form a closed datatype, so an abstract figure cannot be built.
- Colour strings other than "black" and "white": Python's `change_color` turns any other string into "black", and a pawn treats any colour other than "white" as black. The model has exactly two colours.
- Floating-point rounding in `average_grade`: the average is an exact real, and no property depends on rounding. Grades are integers.
- `best_student_average` returns the integer 0 for an empty group, and also for a group whose best student has no grades (`average_grade` returns the integer 0 then); otherwise it returns a float. The model returns the real 0.0 in both zero cases. A student object is always truthy in Python, so the `if best_student` test is the same as "the group is not empty".
- Aliasing of the grade list: a Python student keeps the very list its caller passed in, so `add_grade` also changes the caller's list. The model stores the grades as a value.
- Equality in `list.remove` is Python's default object identity; the model compares object references, which is the same thing.
- The class-attribute defaults of `Phone` and their shadowing by instance attributes on first write: the model gives every phone its own counter that starts at 0, and a number that starts as none.
- A phone number is any Python value; the model uses a string.
- Student names and ages and group names are never changed by the code; they are constant fields here.
